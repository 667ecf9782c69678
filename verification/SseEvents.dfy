/** The byte transformer that bounds server-sent events and hands complete lines to a validator. */
module SseEvents {
  import opened Wrappers

  type Byte = b: nat | b < 256

  const LF: Byte := 10
  const CR: Byte := 13

  /** The limit for one event and, when lines are validated, which lines are admitted; the flag marks the first line. */
  datatype Config = Config(maxBytes: nat, admits: Option<(seq<Byte>, bool) -> bool>)

  datatype LineState = LineState(
    eventBytes: nat, lineHasContent: bool, pendingCarriageReturn: bool, pendingLineIsBlank: bool, isFirstLine: bool,
    line: seq<Byte>)

  const Start := LineState(0, false, false, false, true, [])

  datatype Fault = EventTooLong | LineRejected

  /** What reading bytes leads to: the lines released on the way, and either a new state or a fault at a position. */
  datatype Reading =
    | Continues(state: LineState, released: seq<Byte>)
    | Stops(fault: Fault, released: seq<Byte>, at: nat)

  // ---------------------------------------------------------------- one byte

  function FinishLine(c: Config, s: LineState, isBlank: bool): Reading {
    if c.admits.Some? && !c.admits.value(s.line, s.isFirstLine) then Stops(LineRejected, [], 0)
    else Continues(s.(eventBytes := if isBlank then 0 else s.eventBytes, lineHasContent := false,
                      pendingCarriageReturn := false, isFirstLine := false, line := []),
                   s.line)
  }

  function Counted(c: Config, s: LineState, b: Byte): LineState {
    s.(eventBytes := s.eventBytes + 1, line := if c.admits.Some? then s.line + [b] else s.line)
  }

  /** A byte that is not the second half of a carriage return and line feed pair. */
  function ReadPlain(c: Config, s: LineState, b: Byte): Reading {
    var counted := Counted(c, s, b);
    if counted.eventBytes > c.maxBytes then Stops(EventTooLong, [], 0)
    else if b == CR then Continues(counted.(pendingCarriageReturn := true, pendingLineIsBlank := !counted.lineHasContent), [])
    else if b == LF then FinishLine(c, counted, !counted.lineHasContent)
    else Continues(counted.(lineHasContent := true), [])
  }

  function ReadByte(c: Config, s: LineState, b: Byte): Reading {
    if !s.pendingCarriageReturn then ReadPlain(c, s, b)
    else if b == LF then
      var counted := Counted(c, s, b);
      if counted.eventBytes > c.maxBytes then Stops(EventTooLong, [], 0)
      else FinishLine(c, counted, s.pendingLineIsBlank)
    else match FinishLine(c, s, s.pendingLineIsBlank)
      case Stops(fault, released, _) => Stops(fault, released, 0)
      case Continues(next, released) =>
        match ReadPlain(c, next, b)
        case Stops(fault, more, _) => Stops(fault, released + more, 0)
        case Continues(last, more) => Continues(last, released + more)
  }

  // ---------------------------------------------------------------- many bytes

  function Read(c: Config, s: LineState, bytes: seq<Byte>): Reading {
    if bytes == [] then Continues(s, [])
    else match Read(c, s, bytes[..|bytes| - 1])
      case Stops(fault, released, at) => Stops(fault, released, at)
      case Continues(next, released) =>
        match ReadByte(c, next, bytes[|bytes| - 1])
        case Stops(fault, more, _) => Stops(fault, released + more, |bytes| - 1)
        case Continues(last, more) => Continues(last, released + more)
  }

  function Behind(n: nat, front: seq<Byte>, r: Reading): Reading {
    match r
    case Stops(fault, released, at) => Stops(fault, front + released, n + at)
    case Continues(state, released) => Continues(state, front + released)
  }

  /** Reading goes on where it stopped, wherever the bytes are cut. */
  lemma {:induction false} ReadConcat(c: Config, s: LineState, first: seq<Byte>, second: seq<Byte>)
    ensures Read(c, s, first + second)
            == match Read(c, s, first)
               case Stops(_, _, _) => Read(c, s, first)
               case Continues(next, released) => Behind(|first|, released, Read(c, next, second))
    decreases |second|
  {
    hide ReadByte;
    if second == [] {
      assert first + second == first;
      if Read(c, s, first).Continues? { assert Read(c, s, first).released + [] == Read(c, s, first).released; }
    } else {
      var n := |second| - 1;
      ReadConcat(c, s, first, second[..n]);
      assert (first + second)[..|first + second| - 1] == first + second[..n];
      if Read(c, s, first).Continues? {
        var next := Read(c, s, first);
        var rest := Read(c, next.state, second[..n]);
        if rest.Continues? { ReleasedAppends(next.released, rest.released, ReadByte(c, rest.state, second[n]).released); }
      }
    }
  }

  lemma ReleasedAppends(a: seq<Byte>, b: seq<Byte>, d: seq<Byte>)
    ensures (a + b) + d == a + (b + d)
  {}

  /** A stopped prefix stops the whole. */
  lemma ReadStops(c: Config, s: LineState, bytes: seq<Byte>, n: nat)
    requires n <= |bytes| && Read(c, s, bytes[..n]).Stops?
    ensures Read(c, s, bytes) == Read(c, s, bytes[..n])
  {
    hide Read;
    ReadConcat(c, s, bytes[..n], bytes[n..]);
    assert bytes[..n] + bytes[n..] == bytes;
  }

  lemma ReadNothing(c: Config, s: LineState)
    ensures Read(c, s, []) == Continues(s, [])
  {}

  lemma ReadOneMore(c: Config, s: LineState, bytes: seq<Byte>, i: nat)
    requires i < |bytes|
    ensures Read(c, s, bytes[..i + 1])
            == match Read(c, s, bytes[..i])
               case Stops(fault, released, at) => Stops(fault, released, at)
               case Continues(next, released) =>
                 match ReadByte(c, next, bytes[i])
                 case Stops(fault, more, _) => Stops(fault, released + more, i)
                 case Continues(last, more) => Continues(last, released + more)
  {
    assert bytes[..i + 1][..i] == bytes[..i];
  }

  // ---------------------------------------------------------------- the transformer

  /** The stream transformer, one chunk at a time. */
  class SseEventBound {
    const config: Config
    var eventBytes: nat
    var lineHasContent: bool
    var pendingCarriageReturn: bool
    var pendingLineIsBlank: bool
    var isFirstLine: bool
    var line: seq<Byte>

    function State(): LineState
      reads this
    {
      LineState(eventBytes, lineHasContent, pendingCarriageReturn, pendingLineIsBlank, isFirstLine, line)
    }

    constructor (config: Config)
      ensures this.config == config && State() == Start
    {
      this.config := config;
      eventBytes, line := 0, [];
      lineHasContent, pendingCarriageReturn, pendingLineIsBlank, isFirstLine := false, false, false, true;
    }

    /** count: whether the byte still fits the event. */
    method Count(b: Byte) returns (fits: bool)
      modifies this
      ensures State() == Counted(config, old(State()), b)
      ensures fits <==> State().eventBytes <= config.maxBytes
    {
      eventBytes := eventBytes + 1;
      if config.admits.Some? { line := line + [b]; }
      fits := eventBytes <= config.maxBytes;
    }

    /** finishLine with admitLine: the complete line is written behind the output so far and then validated. */
    method Finish(isBlank: bool, output: array<Byte>, outputBytes: nat) returns (admitted: bool, end: nat)
      requires config.admits.Some? ==> outputBytes + |line| <= output.Length
      requires config.admits.None? ==> line == []
      modifies this, output
      ensures match FinishLine(config, old(State()), isBlank)
              case Stops(_, _, _) => !admitted && end == outputBytes && State() == old(State())
              case Continues(next, released) => admitted && State() == next && end == outputBytes + |released|
      ensures end <= old(outputBytes + |line|)
      ensures config.admits.Some? ==> output[..outputBytes] == old(output[..outputBytes])
      ensures config.admits.Some? && admitted ==> output[outputBytes..end] == old(line)
      ensures config.admits.None? ==> output[..] == old(output[..])
    {
      end := outputBytes;
      if config.admits.Some? {
        forall k | 0 <= k < |line| { output[outputBytes + k] := line[k]; }
        if !config.admits.value(line, isFirstLine) { return false, outputBytes; }
        end := outputBytes + |line|;
        line := [];
      }
      isFirstLine := false;
      lineHasContent := false;
      pendingCarriageReturn := false;
      if isBlank { eventBytes := 0; }
      admitted := true;
    }

    /** The buffer has room for the unfinished line and n more bytes behind what is already written. */
    predicate Fits(output: array<Byte>, outputBytes: nat, n: nat)
      reads this
    {
      if config.admits.Some? then outputBytes + |line| + n <= output.Length else outputBytes <= output.Length && line == []
    }

    /** What a step leaves: the state and fault of r, with the lines it released written behind the earlier ones. */
    ghost predicate Took(r: Reading, before: seq<Byte>, after: seq<Byte>, fault: Option<Fault>)
      reads this
    {
      && (config.admits.Some? ==> after == before + r.released)
      && match r
         case Continues(next, released) => fault.None? && State() == next
         case Stops(f, _, _) => fault == Some(f)
    }

    /** A byte that completes no pair. */
    method TakePlain(b: Byte, output: array<Byte>, outputBytes: nat) returns (fault: Option<Fault>, end: nat)
      requires Fits(output, outputBytes, 1) && !pendingCarriageReturn
      modifies this, output
      ensures end <= output.Length
      ensures Took(ReadPlain(config, old(State()), b), old(output[..outputBytes]), output[..end], fault)
      ensures fault.None? && config.admits.Some? ==> end + |line| == outputBytes + old(|line|) + 1
      ensures fault.None? && config.admits.None? ==> line == []
    {
      end := outputBytes;
      var fits := Count(b);
      if !fits { return Some(EventTooLong), end; }
      if b == CR {
        pendingCarriageReturn := true;
        pendingLineIsBlank := !lineHasContent;
      } else if b == LF {
        var admitted;
        admitted, end := Finish(!lineHasContent, output, end);
        if !admitted { return Some(LineRejected), end; }
      } else {
        lineHasContent := true;
      }
      fault := None;
    }

    /** The line feed behind a carriage return. */
    method TakePair(output: array<Byte>, outputBytes: nat) returns (fault: Option<Fault>, end: nat)
      requires Fits(output, outputBytes, 1) && pendingCarriageReturn
      modifies this, output
      ensures end <= output.Length
      ensures Took(ReadByte(config, old(State()), LF), old(output[..outputBytes]), output[..end], fault)
      ensures fault.None? && config.admits.Some? ==> end + |line| == outputBytes + old(|line|) + 1
      ensures fault.None? && config.admits.None? ==> line == []
    {
      hide ReadPlain;
      end := outputBytes;
      var fits := Count(LF);
      if !fits { return Some(EventTooLong), end; }
      var admitted;
      admitted, end := Finish(pendingLineIsBlank, output, end);
      fault := if admitted then None else Some(LineRejected);
    }

    /** The line that a lone carriage return ended, once another byte follows. */
    method EndPending(output: array<Byte>, outputBytes: nat) returns (fault: Option<Fault>, end: nat)
      requires Fits(output, outputBytes, 1) && pendingCarriageReturn
      modifies this, output
      ensures end <= output.Length
      ensures Took(FinishLine(config, old(State()), old(pendingLineIsBlank)), old(output[..outputBytes]), output[..end], fault)
      ensures fault.None? ==> !pendingCarriageReturn && Fits(output, end, 1)
      ensures fault.None? && config.admits.Some? ==> end + |line| == outputBytes + old(|line|)
    {
      var admitted;
      admitted, end := Finish(pendingLineIsBlank, output, outputBytes);
      fault := if admitted then None else Some(LineRejected);
    }

    /** The body of the byte loop. */
    method TakeByte(b: Byte, output: array<Byte>, outputBytes: nat) returns (fault: Option<Fault>, end: nat)
      requires Fits(output, outputBytes, 1)
      modifies this, output
      ensures end <= output.Length
      ensures Took(ReadByte(config, old(State()), b), old(output[..outputBytes]), output[..end], fault)
      ensures fault.None? && config.admits.Some? ==> end + |line| == outputBytes + old(|line|) + 1
      ensures fault.None? && config.admits.None? ==> line == []
    {
      hide ReadPlain, FinishLine;
      if !pendingCarriageReturn {
        fault, end := TakePlain(b, output, outputBytes);
      } else if b == LF {
        fault, end := TakePair(output, outputBytes);
      } else {
        ghost var s, before := State(), output[..outputBytes];
        fault, end := EndPending(output, outputBytes);
        if fault.None? {
          ghost var next := State();
          fault, end := TakePlain(b, output, end);
          ReleasedAppends(before, FinishLine(config, s, s.pendingLineIsBlank).released, ReadPlain(config, next, b).released);
        }
      }
    }

    /** The state and the lines written so far are those of a reading that goes on. */
    ghost predicate Reached(r: Reading, written: seq<Byte>)
      reads this
    {
      r.Continues? && State() == r.state && (config.admits.Some? ==> written == r.released)
    }

    /** transform: what is enqueued for one chunk. Complete lines go out even when a later byte faults; without a
        validator the chunk goes out whole or not at all. */
    method Transform(chunk: seq<Byte>) returns (enqueued: seq<Byte>, fault: Option<Fault>)
      requires config.admits.None? ==> line == []
      modifies this
      ensures match Read(config, old(State()), chunk)
              case Continues(next, released) =>
                fault.None? && State() == next && enqueued == if config.admits.Some? then released else chunk
              case Stops(f, released, _) =>
                fault == Some(f) && enqueued == if config.admits.Some? then released else []
      ensures fault.None? && config.admits.None? ==> line == []
    {
      hide Read, ReadByte, State;
      ghost var start := State();
      var output := new Byte[|line| + |chunk|];
      var outputBytes: nat := 0;
      var i := 0;
      ghost var reading := Continues(start, []);
      ReadNothing(config, start);
      assert chunk[..0] == [];
      while i < |chunk|
        invariant 0 <= i <= |chunk| && outputBytes <= output.Length
        invariant config.admits.Some? ==> outputBytes + |line| == old(|line|) + i
        invariant config.admits.None? ==> line == []
        invariant reading.Continues? && reading == Read(config, start, chunk[..i])
        invariant Reached(reading, output[..outputBytes])
      {
        ReadOneMore(config, start, chunk, i);
        ghost var step := ReadByte(config, State(), chunk[i]);
        fault, outputBytes := TakeByte(chunk[i], output, outputBytes);
        if fault.Some? {
          ReadStops(config, start, chunk, i + 1);
          return if config.admits.Some? then output[..outputBytes] else [], fault;
        }
        reading := Continues(step.state, reading.released + step.released);
        i := i + 1;
      }
      assert chunk[..i] == chunk;
      return if config.admits.Some? then output[..outputBytes] else chunk, None;
    }

    /** flush: the unfinished last line goes out unvalidated. */
    method Flush() returns (enqueued: seq<Byte>)
      ensures enqueued == line
    {
      enqueued := line;
    }
  }
}
