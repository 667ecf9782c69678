/** Lines and events of a byte stream by position, and that the transformer reads exactly those. */
module SseEventLines {
  import opened Wrappers
  import opened SseEvents

  // Section 9.2.5 of the WHATWG HTML Standard: a line ends with a carriage return and line feed pair, a single line feed
  // or a single carriage return, and a blank line ends an event.

  /** A line ends just before position e. A carriage return that nothing follows yet may still become a pair. */
  predicate LineEnds(p: seq<Byte>, e: nat) {
    0 < e <= |p| && (p[e - 1] == LF || (p[e - 1] == CR && e < |p| && p[e] != LF))
  }

  predicate LineStarts(p: seq<Byte>, e: nat) {
    e == 0 || LineEnds(p, e)
  }

  /** An event ends just before position e: the line that ends there holds nothing but its own end. */
  predicate EventEnds(p: seq<Byte>, e: nat) {
    && LineEnds(p, e)
    && (LineStarts(p, e - 1) || (e >= 2 && LineStarts(p, e - 2) && p[e - 2] == CR && p[e - 1] == LF))
  }

  predicate EventStarts(p: seq<Byte>, e: nat) {
    e == 0 || EventEnds(p, e)
  }

  /** The last position up to n where a line starts. */
  function LineStart(p: seq<Byte>, n: nat): (s: nat)
    ensures s <= n && LineStarts(p, s)
    ensures forall k :: s < k <= n ==> !LineStarts(p, k)
  {
    if LineStarts(p, n) then n else LineStart(p, n - 1)
  }

  /** The last position up to n where an event starts. */
  function EventStart(p: seq<Byte>, n: nat): (s: nat)
    ensures s <= n && EventStarts(p, s)
    ensures forall k :: s < k <= n ==> !EventStarts(p, k)
  {
    if EventStarts(p, n) then n else EventStart(p, n - 1)
  }

  /** With byte i the event that it belongs to is longer than the limit. */
  predicate Overlong(c: Config, p: seq<Byte>, i: nat)
    requires i < |p|
  {
    i + 1 - EventStart(p[..i + 1], i) > c.maxBytes
  }

  /** The validator refuses the line that ends just before e. */
  predicate Refused(c: Config, p: seq<Byte>, e: nat)
    requires 0 < e <= |p|
  {
    var s := LineStart(p, e - 1);
    c.admits.Some? && !c.admits.value(p[s..e], s == 0)
  }

  /** Byte i shows that the carriage return before it ended a line of its own, and that line is refused. */
  predicate RefusedBefore(c: Config, p: seq<Byte>, i: nat)
    requires i < |p|
  {
    i > 0 && p[i - 1] == CR && p[i] != LF && Refused(c, p[..i + 1], i)
  }

  /** Byte i is a line feed whose line is refused. */
  predicate RefusedAt(c: Config, p: seq<Byte>, i: nat)
    requires i < |p|
  {
    p[i] == LF && Refused(c, p[..i + 1], i + 1)
  }

  predicate Fails(c: Config, p: seq<Byte>, i: nat)
    requires i < |p|
  {
    RefusedBefore(c, p, i) || Overlong(c, p, i) || RefusedAt(c, p, i)
  }

  // ---------------------------------------------------------------- one more byte

  lemma {:induction false} LineStartAgrees(p: seq<Byte>, b: Byte, n: nat)
    requires n < |p|
    ensures LineStart(p + [b], n) == LineStart(p, n)
  {
    if n > 0 { LineStartAgrees(p, b, n - 1); }
  }

  lemma {:induction false} EventStartAgrees(p: seq<Byte>, b: Byte, n: nat)
    requires n < |p|
    ensures EventStart(p + [b], n) == EventStart(p, n)
  {
    if n > 0 { EventStartAgrees(p, b, n - 1); }
  }

  predicate EndsInReturn(p: seq<Byte>) {
    p != [] && p[|p| - 1] == CR
  }

  lemma LineEndsPush(p: seq<Byte>, b: Byte)
    ensures LineEnds(p + [b], |p| + 1) <==> b == LF
    ensures LineEnds(p + [b], |p|) <==> (LineEnds(p, |p|) || (EndsInReturn(p) && b != LF))
    ensures EndsInReturn(p) ==> !LineEnds(p, |p|)
  {}

  lemma LineStartStep(p: seq<Byte>, n: nat)
    requires n > 0
    ensures LineStart(p, n) == if LineEnds(p, n) then n else LineStart(p, n - 1)
    ensures LineEnds(p, n) <==> LineStart(p, n) == n
  {
    hide LineEnds;
  }

  lemma LineStartPush(p: seq<Byte>, b: Byte)
    ensures LineStart(p + [b], |p|) == if EndsInReturn(p) && b != LF then |p| else LineStart(p, |p|)
    ensures LineStart(p + [b], |p| + 1) == if b == LF then |p| + 1 else LineStart(p + [b], |p|)
  {
    hide LineEnds, LineStart;
    LineEndsPush(p, b);
    LineStartStep(p + [b], |p| + 1);
    if p != [] {
      LineStartAgrees(p, b, |p| - 1);
      LineStartStep(p, |p|);
      LineStartStep(p + [b], |p|);
    }
  }

  lemma EventStartStep(p: seq<Byte>, n: nat)
    requires n > 0
    ensures EventStart(p, n) == if EventEnds(p, n) then n else EventStart(p, n - 1)
  {
    hide EventEnds;
  }

  lemma StartsHere(p: seq<Byte>, n: nat)
    ensures LineStarts(p, n) <==> LineStart(p, n) == n
  {
    hide LineEnds;
  }

  /** When a line end is that of a blank line. */
  lemma EventEndsPush(p: seq<Byte>, b: Byte)
    ensures p != [] ==> (EventEnds(p + [b], |p|)
            <==> (EventEnds(p, |p|) || (EndsInReturn(p) && b != LF && LineStart(p, |p|) == |p| - 1)))
    ensures EventEnds(p + [b], |p| + 1)
            <==> (b == LF && (if EndsInReturn(p) then LineStart(p, |p|) == |p| - 1 else LineStart(p, |p|) == |p|))
  {
    LineEndsPush(p, b);
    StartsHere(p, |p|);
    StartsHere(p + [b], |p|);
    LineStartPush(p, b);
    if p != [] {
      LineStartAgrees(p, b, |p| - 1);
      StartsHere(p, |p| - 1);
      StartsHere(p + [b], |p| - 1);
      LineStartStep(p, |p|);
      assert (p + [b])[|p| - 1] == p[|p| - 1] && (p + [b])[|p|] == b;
      if |p| >= 2 {
        LineStartAgrees(p, b, |p| - 2);
        StartsHere(p, |p| - 2);
        StartsHere(p + [b], |p| - 2);
        assert (p + [b])[|p| - 2] == p[|p| - 2];
      }
    }
    hide LineEnds, LineStart, LineStarts;
  }

  lemma EventStartPush(p: seq<Byte>, b: Byte)
    ensures EventStart(p + [b], |p|)
            == if EndsInReturn(p) && b != LF && LineStart(p, |p|) == |p| - 1 then |p| else EventStart(p, |p|)
    ensures EventStart(p + [b], |p| + 1)
            == if b == LF && (if EndsInReturn(p) then LineStart(p, |p|) == |p| - 1 else LineStart(p, |p|) == |p|)
               then |p| + 1 else EventStart(p + [b], |p|)
  {
    hide EventEnds, LineStart, EventStart;
    EventEndsPush(p, b);
    EventStartStep(p + [b], |p| + 1);
    if p != [] {
      EventStartAgrees(p, b, |p| - 1);
      EventStartStep(p + [b], |p|);
      EventStartStep(p, |p|);
    }
  }

  // ---------------------------------------------------------------- what the state means

  /** The state after reading p from the start. */
  function StateOf(c: Config, p: seq<Byte>, blank: bool): LineState {
    var s := LineStart(p, |p|);
    LineState(|p| - EventStart(p, |p|), |p| - s > (if EndsInReturn(p) then 1 else 0), EndsInReturn(p),
              blank, s == 0, if c.admits.Some? then p[s..] else [])
  }

  ghost predicate Describes(c: Config, p: seq<Byte>, s: LineState) {
    s == StateOf(c, p, s.pendingLineIsBlank)
    && (EndsInReturn(p) ==> s.pendingLineIsBlank == (LineStart(p, |p|) == |p| - 1))
  }

  /** The complete lines of p. */
  function Lines(c: Config, p: seq<Byte>): seq<Byte> {
    if c.admits.Some? then p[..LineStart(p, |p|)] else []
  }

  lemma WholePush(p: seq<Byte>, b: Byte)
    ensures (p + [b])[..|p| + 1] == p + [b] && (p + [b])[|p|] == b && (p != [] ==> (p + [b])[|p| - 1] == p[|p| - 1])
  {}

  // What the transformer checks at a byte, in terms of positions.

  lemma OverlongMeans(c: Config, p: seq<Byte>, b: Byte)
    ensures Overlong(c, p + [b], |p|) <==> |p| + 1 - EventStart(p + [b], |p|) > c.maxBytes
  {
    hide EventStart;
    WholePush(p, b);
  }

  lemma LastReturn(p: seq<Byte>, b: Byte)
    requires EndsInReturn(p)
    ensures LineStart(p + [b], |p| - 1) == LineStart(p, |p|)
  {
    LineStartAgrees(p, b, |p| - 1);
    LineStartStep(p, |p|);
    LineEndsPush(p, b);
  }

  lemma RefusedBeforeMeans(c: Config, p: seq<Byte>, b: Byte)
    ensures RefusedBefore(c, p + [b], |p|)
            <==> (EndsInReturn(p) && b != LF && c.admits.Some? && !c.admits.value(p[LineStart(p, |p|)..], LineStart(p, |p|) == 0))
  {
    hide LineStart;
    WholePush(p, b);
    if EndsInReturn(p) {
      LastReturn(p, b);
      assert (p + [b])[LineStart(p, |p|)..|p|] == p[LineStart(p, |p|)..];
    }
  }

  lemma RefusedAtMeans(c: Config, p: seq<Byte>, b: Byte)
    ensures RefusedAt(c, p + [b], |p|)
            <==> (b == LF && c.admits.Some?
                  && !c.admits.value(p[LineStart(p + [b], |p|)..] + [b], LineStart(p + [b], |p|) == 0))
  {
    hide LineStart;
    WholePush(p, b);
    var s := LineStart(p + [b], |p|);
    assert (p + [b])[s..|p| + 1] == p[s..] + [b];
  }

  /** The state once the line that a lone carriage return ended is finished. */
  lemma FinishedReturn(c: Config, p: seq<Byte>, s: LineState, b: Byte)
    requires Describes(c, p, s) && EndsInReturn(p) && b != LF
    ensures RefusedBefore(c, p + [b], |p|) <==> FinishLine(c, s, s.pendingLineIsBlank).Stops?
    ensures FinishLine(c, s, s.pendingLineIsBlank).Continues? ==>
              var next := FinishLine(c, s, s.pendingLineIsBlank).state;
              && !next.pendingCarriageReturn && !next.lineHasContent && !next.isFirstLine && next.line == []
              && next.eventBytes == |p| - EventStart(p + [b], |p|)
              && FinishLine(c, s, s.pendingLineIsBlank).released == s.line
    ensures FinishLine(c, s, s.pendingLineIsBlank).Stops? ==> FinishLine(c, s, s.pendingLineIsBlank) == Stops(LineRejected, [], 0)
  {
    RefusedBeforeMeans(c, p, b);
    EventStartPush(p, b);
    hide LineStart, EventStart, RefusedBefore;
  }

  /** What the state holds just before byte b of p + [b] is counted. */
  ghost predicate Before(c: Config, p: seq<Byte>, b: Byte, s: LineState) {
    var start := LineStart(p + [b], |p|);
    && !s.pendingCarriageReturn && s.eventBytes == |p| - EventStart(p + [b], |p|)
    && (s.lineHasContent <==> |p| > start) && (s.isFirstLine <==> start == 0)
    && s.line == if c.admits.Some? then p[start..] else []
  }

  lemma PlainMeans(c: Config, p: seq<Byte>, b: Byte, s: LineState)
    requires Before(c, p, b, s) && !(EndsInReturn(p) && b == LF) && !RefusedBefore(c, p + [b], |p|)
    ensures match ReadPlain(c, s, b)
            case Stops(fault, more, _) =>
              more == [] && fault == (if Overlong(c, p + [b], |p|) then EventTooLong else LineRejected) && Fails(c, p + [b], |p|)
            case Continues(next, more) =>
              !Fails(c, p + [b], |p|) && Describes(c, p + [b], next) && more == Released(c, p, b)
  {
    OverlongMeans(c, p, b);
    RefusedAtMeans(c, p, b);
    hide LineStart, EventStart, RefusedBefore, RefusedAt, Overlong, Describes;
    if ReadPlain(c, s, b).Continues? { PlainDescribes(c, p, b, s); }
  }

  /** The lines that byte b completes besides a line ended by an earlier carriage return. */
  function Released(c: Config, p: seq<Byte>, b: Byte): seq<Byte> {
    if c.admits.Some? && b == LF then p[LineStart(p + [b], |p|)..] + [b] else []
  }

  lemma PlainDescribes(c: Config, p: seq<Byte>, b: Byte, s: LineState)
    requires Before(c, p, b, s) && !(EndsInReturn(p) && b == LF) && ReadPlain(c, s, b).Continues?
    ensures Describes(c, p + [b], ReadPlain(c, s, b).state) && ReadPlain(c, s, b).released == Released(c, p, b)
  {
    EventStartPush(p, b);
    LineStartPush(p, b);
    WholePush(p, b);
    var start := LineStart(p + [b], |p|);
    assert (p + [b])[start..] == p[start..] + [b];
    hide LineStart, EventStart;
    if b == LF { assert (p + [b])[|p| + 1..] == []; }
  }

  lemma PairMeans(c: Config, p: seq<Byte>, s: LineState)
    requires Describes(c, p, s) && EndsInReturn(p)
    ensures match ReadByte(c, s, LF)
            case Stops(fault, more, _) =>
              more == [] && fault == (if Overlong(c, p + [LF], |p|) then EventTooLong else LineRejected) && Fails(c, p + [LF], |p|)
            case Continues(next, more) =>
              !Fails(c, p + [LF], |p|) && Describes(c, p + [LF], next) && more == Released(c, p, LF)
  {
    OverlongMeans(c, p, LF);
    RefusedAtMeans(c, p, LF);
    RefusedBeforeMeans(c, p, LF);
    EventStartPush(p, LF);
    LineStartPush(p, LF);
    hide LineStart, EventStart, RefusedBefore, RefusedAt, Overlong, Describes, ReadPlain;
    PairLine(c, p, s);
    if ReadByte(c, s, LF).Continues? { PairDescribes(c, p, s); }
  }

  lemma PairLine(c: Config, p: seq<Byte>, s: LineState)
    requires Describes(c, p, s)
    ensures s.line == (if c.admits.Some? then p[LineStart(p, |p|)..] else []) && (s.isFirstLine <==> LineStart(p, |p|) == 0)
    ensures s.pendingCarriageReturn == EndsInReturn(p) && s.eventBytes == |p| - EventStart(p, |p|)
  {
    hide LineStart, EventStart;
  }

  lemma PairDescribes(c: Config, p: seq<Byte>, s: LineState)
    requires Describes(c, p, s) && EndsInReturn(p) && ReadByte(c, s, LF).Continues?
    ensures Describes(c, p + [LF], ReadByte(c, s, LF).state) && ReadByte(c, s, LF).released == Released(c, p, LF)
  {
    EventStartPush(p, LF);
    LineStartPush(p, LF);
    WholePush(p, LF);
    hide LineStart, EventStart, ReadPlain;
    assert (p + [LF])[|p| + 1..] == [];
  }

  /** One byte takes the state of p to that of p and the byte, or stops because the byte fails. */
  lemma ByteMeans(c: Config, p: seq<Byte>, s: LineState, b: Byte)
    requires Describes(c, p, s)
    ensures match ReadByte(c, s, b)
            case Stops(fault, more, _) =>
              && Fails(c, p + [b], |p|)
              && fault == (if !RefusedBefore(c, p + [b], |p|) && Overlong(c, p + [b], |p|) then EventTooLong else LineRejected)
            case Continues(next, more) =>
              !Fails(c, p + [b], |p|) && Describes(c, p + [b], next) && Lines(c, p) + more == Lines(c, p + [b])
  {
    hide Describes, Fails, Lines, Released, ReadPlain, FinishLine, Before, RefusedBefore, Overlong, LineStart, EventStart;
    PairLine(c, p, s);
    if !EndsInReturn(p) {
      PlainBefore(c, p, s, b);
      RefusedBeforeMeans(c, p, b);
      PlainMeans(c, p, b, s);
      if ReadByte(c, s, b).Continues? { LinesGrow(c, p, b, ReadByte(c, s, b).released); }
    } else if b == LF {
      RefusedBeforeMeans(c, p, b);
      PairMeans(c, p, s);
      if ReadByte(c, s, b).Continues? { LinesGrow(c, p, b, ReadByte(c, s, b).released); }
    } else {
      FinishedReturn(c, p, s, b);
      RefusedFails(c, p, b);
      var finished := FinishLine(c, s, s.pendingLineIsBlank);
      if finished.Continues? {
        FinishedBefore(c, p, b, finished.state);
        PlainMeans(c, p, b, finished.state);
        if ReadByte(c, s, b).Continues? { LinesGrowReturn(c, p, b, s.line, ReadByte(c, s, b).released); }
      }
    }
  }

  lemma RefusedFails(c: Config, p: seq<Byte>, b: Byte)
    ensures RefusedBefore(c, p + [b], |p|) ==> Fails(c, p + [b], |p|)
  {
    hide RefusedBefore;
  }

  lemma PlainBefore(c: Config, p: seq<Byte>, s: LineState, b: Byte)
    requires Describes(c, p, s) && !EndsInReturn(p)
    ensures Before(c, p, b, s)
  {
    LineStartPush(p, b);
    EventStartPush(p, b);
    hide LineStart, EventStart;
  }

  lemma FinishedBefore(c: Config, p: seq<Byte>, b: Byte, s: LineState)
    requires EndsInReturn(p) && b != LF && !s.pendingCarriageReturn && !s.lineHasContent && !s.isFirstLine && s.line == []
    requires s.eventBytes == |p| - EventStart(p + [b], |p|)
    ensures Before(c, p, b, s)
  {
    LineStartPush(p, b);
    hide LineStart, EventStart;
    assert p[|p|..] == [];
  }

  lemma LinesGrow(c: Config, p: seq<Byte>, b: Byte, more: seq<Byte>)
    requires more == Released(c, p, b) && !(EndsInReturn(p) && b != LF)
    ensures Lines(c, p) + more == Lines(c, p + [b])
  {
    LineStartPush(p, b);
    hide LineStart;
    var start := LineStart(p, |p|);
    if b == LF { assert p + [b] == p[..start] + (p[start..] + [b]); assert (p + [b])[..|p| + 1] == p + [b]; }
    else { assert (p + [b])[..start] == p[..start] + []; }
  }

  lemma LinesGrowReturn(c: Config, p: seq<Byte>, b: Byte, line: seq<Byte>, more: seq<Byte>)
    requires EndsInReturn(p) && b != LF && more == line + Released(c, p, b)
    requires line == if c.admits.Some? then p[LineStart(p, |p|)..] else []
    ensures Lines(c, p) + more == Lines(c, p + [b])
  {
    LineStartPush(p, b);
    hide LineStart;
    assert (p + [b])[..|p|] == p;
    assert p == p[..LineStart(p, |p|)] + p[LineStart(p, |p|)..];
  }

  // ---------------------------------------------------------------- the results

  lemma FailsHere(c: Config, p: seq<Byte>, n: nat, i: nat)
    requires i < n <= |p|
    ensures Fails(c, p[..n], i) <==> Fails(c, p, i)
  {
    hide Refused, EventStart;
    assert p[..n][..i + 1] == p[..i + 1];
  }

  lemma StartDescribes(c: Config)
    ensures Describes(c, [], Start) && Lines(c, []) == []
  {}

  /** The transformer stops at the first byte that fails and at no other: the line that a lone carriage return ended is
      refused, the event is over the limit, or the line that the byte ends is refused, in this order. Otherwise it has
      released exactly the complete lines and holds the rest. */
  lemma {:induction false} ReadsByPosition(c: Config, p: seq<Byte>)
    ensures match Read(c, Start, p)
            case Continues(next, released) =>
              && (forall i :: 0 <= i < |p| ==> !Fails(c, p, i))
              && Describes(c, p, next) && released == Lines(c, p)
            case Stops(fault, released, at) =>
              && at < |p| && Fails(c, p, at) && (forall i :: 0 <= i < at ==> !Fails(c, p, i))
              && fault == if !RefusedBefore(c, p, at) && Overlong(c, p, at) then EventTooLong else LineRejected
  {
    hide ReadByte, Fails, Describes, RefusedBefore, Overlong, Lines;
    if p == [] {
      StartDescribes(c);
    } else {
      var n := |p| - 1;
      var front := p[..n];
      ReadsByPosition(c, front);
      assert p == front + [p[n]];
      forall i | 0 <= i < n ensures Fails(c, front, i) <==> Fails(c, p, i) { FailsHere(c, p, n, i); }
      var r := Read(c, Start, front);
      if r.Continues? { ByteMeans(c, front, r.state, p[n]); }
      else { SameKind(c, p, n, r.at); }
    }
  }

  lemma SameKind(c: Config, p: seq<Byte>, n: nat, i: nat)
    requires i < n <= |p|
    ensures RefusedBefore(c, p[..n], i) <==> RefusedBefore(c, p, i)
    ensures Overlong(c, p[..n], i) <==> Overlong(c, p, i)
  {
    hide Refused, EventStart;
    assert p[..n][..i + 1] == p[..i + 1];
  }

  /** Without a validator the transformer fails exactly when some event is longer than the limit. */
  lemma FailsOnlyOnLongEvents(maxBytes: nat, p: seq<Byte>)
    ensures Read(Config(maxBytes, None), Start, p).Stops?
            <==> exists i :: 0 <= i < |p| && Overlong(Config(maxBytes, None), p, i)
  {
    hide Read, Overlong, Describes;
    var c := Config(maxBytes, None);
    ReadsByPosition(c, p);
    forall i | 0 <= i < |p| ensures Fails(c, p, i) <==> Overlong(c, p, i) {}
  }

  // ---------------------------------------------------------------- whole streams

  /** What a stream of chunks puts out, and where it fails. */
  datatype Piped = Piped(output: seq<Byte>, failure: Option<(Fault, nat)>)

  /** The chunks through transform one after the other, then flush. */
  function Pipe(c: Config, s: LineState, chunks: seq<seq<Byte>>): Piped
    decreases |chunks|
  {
    if chunks == [] then Piped(s.line, None)
    else match Read(c, s, chunks[0])
      case Stops(fault, released, at) => Piped(if c.admits.Some? then released else [], Some((fault, at)))
      case Continues(next, released) =>
        var rest := Pipe(c, next, chunks[1..]);
        Piped((if c.admits.Some? then released else chunks[0]) + rest.output,
              match rest.failure case None => None case Some(f) => Some((f.0, |chunks[0]| + f.1)))
  }

  function Flatten(chunks: seq<seq<Byte>>): seq<Byte> {
    if chunks == [] then [] else chunks[0] + Flatten(chunks[1..])
  }

  /** The whole stream in one piece. */
  function Whole(c: Config, s: LineState, bytes: seq<Byte>): Piped {
    match Read(c, s, bytes)
    case Stops(fault, released, at) => Piped(released, Some((fault, at)))
    case Continues(next, released) => Piped(released + next.line, None)
  }

  lemma {:induction false} PipeIsWhole(c: Config, s: LineState, chunks: seq<seq<Byte>>)
    ensures Pipe(c, s, chunks).failure == Whole(c, s, Flatten(chunks)).failure
    ensures c.admits.Some? ==> Pipe(c, s, chunks).output == Whole(c, s, Flatten(chunks)).output
    decreases |chunks|
  {
    hide Read;
    if chunks == [] {
      ReadNothing(c, s);
      assert [] + s.line == s.line;
    } else {
      ReadConcat(c, s, chunks[0], Flatten(chunks[1..]));
      if Read(c, s, chunks[0]).Continues? {
        var next := Read(c, s, chunks[0]);
        PipeIsWhole(c, next.state, chunks[1..]);
        var rest := Read(c, next.state, Flatten(chunks[1..]));
        if rest.Continues? { ReleasedAppends(next.released, rest.released, rest.state.line); }
      }
    }
  }

  /** Any cut of the same bytes fails at the same byte with the same fault or not at all; a validating transformer also
      puts out the same bytes. */
  lemma ChunkingDoesNotMatter(c: Config, chunks: seq<seq<Byte>>, others: seq<seq<Byte>>)
    requires Flatten(chunks) == Flatten(others)
    ensures Pipe(c, Start, chunks).failure == Pipe(c, Start, others).failure
    ensures c.admits.Some? ==> Pipe(c, Start, chunks) == Pipe(c, Start, others)
  {
    hide Pipe, Whole;
    PipeIsWhole(c, Start, chunks);
    PipeIsWhole(c, Start, others);
  }

  lemma {:induction false} ReadHoldsNoLine(c: Config, s: LineState, bytes: seq<Byte>)
    requires c.admits.None? && s.line == []
    ensures Read(c, s, bytes).Continues? ==> Read(c, s, bytes).state.line == []
  {
    if bytes != [] { ReadHoldsNoLine(c, s, bytes[..|bytes| - 1]); }
  }

  lemma {:induction false} PlainPipeCopies(c: Config, s: LineState, chunks: seq<seq<Byte>>)
    requires c.admits.None? && s.line == [] && Pipe(c, s, chunks).failure.None?
    ensures Pipe(c, s, chunks).output == Flatten(chunks)
    decreases |chunks|
  {
    if chunks != [] {
      ReadHoldsNoLine(c, s, chunks[0]);
      hide Read;
      PlainPipeCopies(c, Read(c, s, chunks[0]).state, chunks[1..]);
    }
  }

  /** A stream that does not fail comes out byte for byte. */
  lemma SuccessCopies(c: Config, chunks: seq<seq<Byte>>)
    ensures Pipe(c, Start, chunks).failure.None? ==> Pipe(c, Start, chunks).output == Flatten(chunks)
  {
    hide Read, Pipe, Flatten, Describes, Lines;
    if Pipe(c, Start, chunks).failure.None? {
      if c.admits.None? {
        PlainPipeCopies(c, Start, chunks);
      } else {
        var p := Flatten(chunks);
        PipeIsWhole(c, Start, chunks);
        ReadsByPosition(c, p);
        LinesAndRest(c, p, Read(c, Start, p).state);
      }
    }
  }

  lemma LinesAndRest(c: Config, p: seq<Byte>, s: LineState)
    requires c.admits.Some? && Describes(c, p, s)
    ensures Lines(c, p) + s.line == p
  {
    hide EventStart;
    assert p == p[..LineStart(p, |p|)] + p[LineStart(p, |p|)..];
  }
}
