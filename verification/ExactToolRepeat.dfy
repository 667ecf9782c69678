/** The exact-repeat tracker: how many times in a row the same prepared tool call was observed. */
module ExactToolRepeat {
  import opened Wrappers

  type Name = string

  /** A tool call of an assistant message, by object identity. */
  type CallRef = nat

  datatype Policy = Policy(advisoryThreshold: nat, terminationThreshold: nat, exemptToolNames: seq<Name>)

  datatype Action = Advisory | Terminated

  datatype Observation = Observation(action: Option<Action>, consecutiveCount: nat, block: bool)

  // ---------------------------------------------------------------- the exemption search

  /** Strings by code unit. */
  predicate Less(a: Name, b: Name) {
    if b == [] then false else if a == [] then true
    else a[0] < b[0] || (a[0] == b[0] && Less(a[1..], b[1..]))
  }

  lemma {:induction false} LessIsStrict(a: Name, b: Name)
    requires Less(a, b)
    ensures !Less(b, a) && a != b
  {
    if a != [] && b != [] && a[0] == b[0] { LessIsStrict(a[1..], b[1..]); }
  }

  predicate Sorted(names: seq<Name>) {
    forall i, j :: 0 <= i < j < |names| ==> Less(names[i], names[j])
  }

  /** hasSortedName: the binary search agrees with membership. */
  method HasSortedName(names: seq<Name>, value: Name) returns (found: bool)
    requires Sorted(names)
    ensures found <==> value in names
  {
    var lower, upper := 0, |names| - 1;
    while lower <= upper
      invariant 0 <= lower <= upper + 1 <= |names|
      invariant forall i :: 0 <= i < |names| && names[i] == value ==> lower <= i <= upper
      decreases upper - lower
    {
      var middle := lower + (upper - lower) / 2;
      var candidate := names[middle];
      if candidate == value { return true; }
      if Less(candidate, value) {
        LessIsStrict(candidate, value);
        lower := middle + 1;
      } else {
        upper := middle - 1;
      }
    }
    found := false;
  }

  // ---------------------------------------------------------------- the history definition

  /** What happened to each call of each message in turn: observed with its name and canonical arguments, or passed
      over. An exempt call leaves no mark. */
  datatype Mark = Seen(name: Name, arguments: string) | PassedOver

  /** The length of the trailing run of equal observed calls. */
  function TrailingRun(marks: seq<Mark>): (n: nat)
    ensures n <= |marks|
  {
    if marks == [] || marks[|marks| - 1].PassedOver? then 0
    else if |marks| >= 2 && marks[|marks| - 2] == marks[|marks| - 1] then 1 + TrailingRun(marks[..|marks| - 1])
    else 1
  }

  /** It is the longest one: the last n marks are one observed call, and the mark before them is something else. */
  lemma {:induction false} TrailingRunIsLongest(marks: seq<Mark>)
    ensures var n := TrailingRun(marks);
      && (n > 0 ==> marks[|marks| - 1].Seen?)
      && (forall i :: |marks| - n <= i < |marks| ==> marks[i] == marks[|marks| - 1])
      && (n > 0 && n < |marks| ==> marks[|marks| - n - 1] != marks[|marks| - 1])
      && (n == 0 && marks != [] ==> marks[|marks| - 1] == PassedOver)
  {
    if |marks| >= 2 && marks[|marks| - 1].Seen? && marks[|marks| - 2] == marks[|marks| - 1] {
      TrailingRunIsLongest(marks[..|marks| - 1]);
    }
  }

  lemma RunPush(marks: seq<Mark>, m: Mark)
    ensures TrailingRun(marks + [m])
            == if m.PassedOver? then 0
               else if marks != [] && marks[|marks| - 1] == m then 1 + TrailingRun(marks) else 1
  {
    assert (marks + [m])[..|marks|] == marks;
  }

  function Passed(n: nat): (marks: seq<Mark>)
    ensures |marks| == n && forall i :: 0 <= i < n ==> marks[i] == PassedOver
  {
    if n == 0 then [] else Passed(n - 1) + [PassedOver]
  }

  lemma PassedEndsRun(marks: seq<Mark>, n: nat)
    requires n > 0
    ensures TrailingRun(marks + Passed(n)) == 0 && (marks + Passed(n))[|marks| + n - 1] == PassedOver
  {}

  /** The first position, from i on, of a call object; |calls| when there is none. */
  function IndexOf(calls: seq<CallRef>, call: CallRef, i: nat): (p: nat)
    requires i <= |calls|
    ensures i <= p <= |calls| && (p < |calls| ==> calls[p] == call)
    ensures forall k :: i <= k < p ==> calls[k] != call
    decreases |calls| - i
  {
    if i == |calls| || calls[i] == call then i else IndexOf(calls, call, i + 1)
  }

  // ---------------------------------------------------------------- the tracker

  /** ExactToolRepeatTracker, with the history of marks that it summarizes. */
  class ExactToolRepeatTracker {
    const policy: Policy
    var tracked: Option<(Name, string)>
    var consecutiveCount: nat
    var advisory: Option<(Name, nat)>
    var terminated: bool
    var batchCalls: seq<CallRef>
    var nextBatchCall: nat
    ghost var history: seq<Mark>

    ghost predicate Valid()
      reads this
    {
      && 1 <= policy.advisoryThreshold < policy.terminationThreshold && Sorted(policy.exemptToolNames)
      && nextBatchCall <= |batchCalls|
      && consecutiveCount == TrailingRun(history)
      && (tracked.Some? <==> consecutiveCount > 0)
      && (tracked.Some? ==> history[|history| - 1] == Seen(tracked.value.0, tracked.value.1))
      && consecutiveCount <= policy.terminationThreshold
      && (terminated <==> consecutiveCount == policy.terminationThreshold)
      && (advisory.Some? <==> consecutiveCount >= policy.advisoryThreshold)
      && (advisory.Some? ==> tracked.Some? && advisory.value == (tracked.value.0, policy.advisoryThreshold))
    }

    constructor (policy: Policy)
      requires 1 <= policy.advisoryThreshold < policy.terminationThreshold && Sorted(policy.exemptToolNames)
      ensures Valid() && this.policy == policy && history == []
    {
      this.policy := policy;
      tracked, consecutiveCount, advisory, terminated := None, 0, None, false;
      batchCalls, nextBatchCall, history := [], 0, [];
    }

    /** resetSequence, for n > 0 calls that were passed over. */
    method ResetSequence(ghost n: nat)
      requires Valid() && !terminated && n > 0
      modifies this
      ensures Valid() && !terminated && history == old(history) + Passed(n) && consecutiveCount == 0
      ensures batchCalls == old(batchCalls) && nextBatchCall == old(nextBatchCall)
    {
      PassedEndsRun(history, n);
      tracked, consecutiveCount, advisory := None, 0, None;
      history := history + Passed(n);
    }

    /** A new message; the calls of the message before that were never observed break the run. */
    method BeginAssistantMessage(toolCalls: seq<CallRef>)
      requires Valid()
      modifies this
      ensures Valid() && terminated == old(terminated) && batchCalls == toolCalls && nextBatchCall == 0
      ensures history == old(history) + if terminated then [] else Passed(old(|batchCalls| - nextBatchCall))
    {
      if !terminated && nextBatchCall < |batchCalls| { ResetSequence(|batchCalls| - nextBatchCall); }
      else { assert history + [] == history; }
      batchCalls, nextBatchCall := toolCalls, 0;
    }

    method FinishAssistantMessage()
      requires Valid()
      modifies this
      ensures Valid() && terminated == old(terminated) && batchCalls == [] && nextBatchCall == 0
      ensures history == old(history) + if terminated then [] else Passed(old(|batchCalls| - nextBatchCall))
    {
      BeginAssistantMessage([]);
    }

    /** The call is counted. Its run's length is the count; the advisory comes exactly when the run reaches the lower
        threshold, termination when it reaches the upper one, and from then on every call is blocked. */
    method Observe(toolCall: CallRef, toolName: Name, arguments: string) returns (r: Option<Observation>)
      requires Valid()
      modifies this
      ensures Valid() && batchCalls == old(batchCalls)
      ensures old(terminated) ==>
                && terminated && history == old(history) && nextBatchCall == old(nextBatchCall)
                && r == Some(Observation(None, consecutiveCount, true))
      ensures !old(terminated) ==>
                var p := IndexOf(batchCalls, toolCall, old(nextBatchCall));
                && nextBatchCall == (if p < |batchCalls| then p + 1 else |batchCalls|)
                && history == old(history)
                     + Passed(if p < |batchCalls| then p - old(nextBatchCall) else |batchCalls| - old(nextBatchCall) + 1)
                     + (if toolName in policy.exemptToolNames then [] else [Seen(toolName, arguments)])
                && (toolName in policy.exemptToolNames ==> r == None)
                && (toolName !in policy.exemptToolNames ==>
                      r == if consecutiveCount == policy.terminationThreshold then
                             Some(Observation(Some(Terminated), consecutiveCount, true))
                           else if consecutiveCount == policy.advisoryThreshold then
                             Some(Observation(Some(Advisory), consecutiveCount, false))
                           else None)
    {
      hide TrailingRun, IndexOf, Sorted, Passed;
      if terminated { return Some(Observation(None, consecutiveCount, true)); }
      var p := IndexOf(batchCalls, toolCall, nextBatchCall);
      if p < |batchCalls| && p == nextBatchCall {
        assert Passed(0) == [] && history + [] == history;
      } else {
        ResetSequence(if p < |batchCalls| then p - nextBatchCall else |batchCalls| - nextBatchCall + 1);
      }
      nextBatchCall := if p < |batchCalls| then p + 1 else |batchCalls|;
      var exempt := HasSortedName(policy.exemptToolNames, toolName);
      if exempt {
        assert history + [] == history;
        return None;
      }
      r := Count(toolName, arguments);
    }

    /** The counting part of observe. */
    method Count(toolName: Name, arguments: string) returns (r: Option<Observation>)
      requires Valid() && !terminated
      modifies this
      ensures Valid() && history == old(history) + [Seen(toolName, arguments)]
      ensures batchCalls == old(batchCalls) && nextBatchCall == old(nextBatchCall)
      ensures r == if consecutiveCount == policy.terminationThreshold then
                     Some(Observation(Some(Terminated), consecutiveCount, true))
                   else if consecutiveCount == policy.advisoryThreshold then
                     Some(Observation(Some(Advisory), consecutiveCount, false))
                   else None
    {
      RunPush(history, Seen(toolName, arguments));
      TrailingRunIsLongest(history);
      history := history + [Seen(toolName, arguments)];
      if tracked == Some((toolName, arguments)) {
        consecutiveCount := if consecutiveCount + 1 < policy.terminationThreshold then consecutiveCount + 1
                            else policy.terminationThreshold;
      } else {
        tracked, consecutiveCount, advisory := Some((toolName, arguments)), 1, None;
      }
      if consecutiveCount >= policy.terminationThreshold {
        terminated := true;
        return Some(Observation(Some(Terminated), consecutiveCount, true));
      }
      if consecutiveCount == policy.advisoryThreshold {
        advisory := Some((toolName, consecutiveCount));
        return Some(Observation(Some(Advisory), consecutiveCount, false));
      }
      r := None;
    }

    method Reset()
      requires Valid()
      modifies this
      ensures Valid() && !terminated && history == [] && batchCalls == [] && nextBatchCall == 0
    {
      tracked, consecutiveCount, advisory, terminated := None, 0, None, false;
      batchCalls, nextBatchCall, history := [], 0, [];
    }
  }
}
