/** Pages of goal projections, chained by their cursors, list what one full scan would. */
module ActionGoalPages {
  import opened Wrappers
  import opened ActionRecords
  import opened StableSort
  import opened ActionJournal
  import opened ActionJournalInvariant
  import opened ActionJournalSteps

  ghost predicate InSequence(j: Journal) {
    && Indexed(j)
    && (forall i :: 0 <= i < |j.order| ==> j.order[i] in j.sequences)
    && (forall a, b :: 0 <= a < b < |j.order| ==> j.sequences[j.order[a]] < j.sequences[j.order[b]])
  }

  /** Candidates by rising sequence, all after the cursor and before the records from position n on. */
  ghost predicate Increasing(j: Journal, goals: seq<GoalCandidate>, after: nat, n: nat)
    requires InSequence(j)
  {
    && (forall a :: 0 <= a < |goals| ==> goals[a].sequence > after)
    && (forall a, i :: 0 <= a < |goals| && n <= i < |j.order| ==> goals[a].sequence < j.sequences[j.order[i]])
    && (forall a, b :: 0 <= a < b < |goals| ==> goals[a].sequence < goals[b].sequence)
  }

  lemma {:induction false} GoalsIncrease(j: Journal, sessionId: Id, actorId: Id, after: nat, n: nat)
    requires InSequence(j) && n <= |j.order|
    ensures Increasing(j, GoalsAfter(j, sessionId, actorId, after, n), after, n)
  {
    if n > 0 {
      GoalsIncrease(j, sessionId, actorId, after, n - 1);
    }
  }

  lemma {:induction false} NoGoalsBehind(j: Journal, sessionId: Id, actorId: Id, after: nat, cut: nat, n: nat)
    requires InSequence(j) && n <= |j.order| && after <= cut
    requires forall a :: 0 <= a < |GoalsAfter(j, sessionId, actorId, after, n)| ==>
               GoalsAfter(j, sessionId, actorId, after, n)[a].sequence <= cut
    ensures GoalsAfter(j, sessionId, actorId, cut, n) == []
  {
    if n > 0 {
      var all, front := GoalsAfter(j, sessionId, actorId, after, n), GoalsAfter(j, sessionId, actorId, after, n - 1);
      forall a | 0 <= a < |front| ensures front[a].sequence <= cut { assert all[a] == front[a]; }
      NoGoalsBehind(j, sessionId, actorId, after, cut, n - 1);
      if |all| > |front| { assert all[|front|].sequence <= cut; }
    }
  }

  /** Listing again after the sequence of one candidate gives exactly the candidates behind it. */
  lemma {:induction false} GoalsResume(j: Journal, sessionId: Id, actorId: Id, after: nat, at: nat, n: nat)
    requires InSequence(j) && n <= |j.order| && at < |GoalsAfter(j, sessionId, actorId, after, n)|
    ensures var goals := GoalsAfter(j, sessionId, actorId, after, n);
            GoalsAfter(j, sessionId, actorId, goals[at].sequence, n) == goals[at + 1..]
  {
    var goals := GoalsAfter(j, sessionId, actorId, after, n);
    var front := GoalsAfter(j, sessionId, actorId, after, n - 1);
    GoalsIncrease(j, sessionId, actorId, after, n);
    GoalsIncrease(j, sessionId, actorId, after, n - 1);
    if at < |front| {
      GoalsResume(j, sessionId, actorId, after, at, n - 1);
      assert goals[at] == front[at];
      assert goals[at + 1..] == front[at + 1..] + goals[|front|..];
    } else {
      NoGoalsBehind(j, sessionId, actorId, after, goals[at].sequence, n - 1);
    }
  }

  /** One page and what is listed from its cursor make up everything; without a cursor the page is everything. */
  lemma PageThenRest(j: Journal, config: Config, sessionId: Id, actorId: Id, after: nat, limit: nat)
    requires InSequence(j) && ListGoals(j, config, sessionId, actorId, after, limit).Ok?
    ensures var page := ListGoals(j, config, sessionId, actorId, after, limit).value;
            && |page.candidates| <= limit
            && GoalsAfter(j, sessionId, actorId, after, |j.order|)
               == page.candidates
                  + (if page.nextAfterSequence.None? then []
                     else GoalsAfter(j, sessionId, actorId, page.nextAfterSequence.value, |j.order|))
  {
    var goals := GoalsAfter(j, sessionId, actorId, after, |j.order|);
    if |goals| > limit {
      GoalsResume(j, sessionId, actorId, after, limit - 1, |j.order|);
      assert goals == goals[..limit] + goals[limit..];
    }
  }

  function Concat(pages: seq<GoalPage>): seq<GoalCandidate> {
    if pages == [] then [] else pages[0].candidates + Concat(pages[1..])
  }

  /** pages were listed one after another, each from the cursor of the one before, until none was given. */
  ghost predicate Chained(j: Journal, config: Config, sessionId: Id, actorId: Id, after: nat, limit: nat, pages: seq<GoalPage>)
    requires Indexed(j)
    decreases |pages|
  {
    && pages != []
    && ListGoals(j, config, sessionId, actorId, after, limit) == Ok(pages[0])
    && (if |pages| == 1 then pages[0].nextAfterSequence.None?
        else pages[0].nextAfterSequence.Some?
             && Chained(j, config, sessionId, actorId, pages[0].nextAfterSequence.value, limit, pages[1..]))
  }

  lemma {:induction false} ChainedPagesListAll(j: Journal, config: Config, sessionId: Id, actorId: Id,
                                               after: nat, limit: nat, pages: seq<GoalPage>)
    requires InSequence(j) && Chained(j, config, sessionId, actorId, after, limit, pages)
    ensures Concat(pages) == GoalsAfter(j, sessionId, actorId, after, |j.order|)
    decreases |pages|
  {
    PageThenRest(j, config, sessionId, actorId, after, limit);
    if |pages| > 1 {
      ChainedPagesListAll(j, config, sessionId, actorId, pages[0].nextAfterSequence.value, limit, pages[1..]);
    } else {
      assert Concat(pages[1..]) == [];
    }
  }

  /** A full scan lists exactly the records of the stream that await their goal. */
  lemma {:induction false} GoalsAreAwaiting(j: Journal, sessionId: Id, actorId: Id, n: nat, c: GoalCandidate)
    requires InSequence(j) && n <= |j.order| && forall i :: 0 <= i < |j.order| ==> j.sequences[j.order[i]] > 0
    ensures c in GoalsAfter(j, sessionId, actorId, 0, n)
            <==> exists i :: 0 <= i < n && c == GoalCandidate(j.sequences[j.order[i]], j.records[j.order[i]])
                             && AwaitsGoal(j.records[j.order[i]], sessionId, actorId)
  {
    if n > 0 { GoalsAreAwaiting(j, sessionId, actorId, n - 1, c); }
  }

  /** Counting a settlement in beforehand pays off: when settling never shrinks a record's text, no stored record is
      ever too large to list. */
  lemma ListingNeverOversize(j: Journal, config: Config, sessionId: Id, actorId: Id, after: nat, limit: nat)
    requires Inv(j, config) && Indexed(j) && config.limits.Some? && 0 < limit <= config.limits.value.maxListBatchSize
    requires forall r: ActionRecord, at :: r.settlement.None? ==>
               config.recordBytes(r) <= config.recordBytes(r.(settlement := Some(Settlement(SourceFailed, at))))
    ensures ListGoals(j, config, sessionId, actorId, after, limit).Ok?
  {
    hide Inv, OrderOk, Keyed, TableOk, Sound;
    InvParts(j, config);
    var goals := GoalsAfter(j, sessionId, actorId, after, |j.order|);
    forall c | c in goals ensures !Oversize(config, c) {
      GoalsStored(j, sessionId, actorId, after, |j.order|, c);
    }
  }

  lemma {:induction false} GoalsStored(j: Journal, sessionId: Id, actorId: Id, after: nat, n: nat, c: GoalCandidate)
    requires Indexed(j) && n <= |j.order| && c in GoalsAfter(j, sessionId, actorId, after, n)
    ensures exists k :: k in j.records && j.records[k] == c.action
    ensures AwaitsGoal(c.action, sessionId, actorId)
  {
    if c in GoalsAfter(j, sessionId, actorId, after, n - 1) {
      GoalsStored(j, sessionId, actorId, after, n - 1, c);
    } else {
      assert j.order[n - 1] in j.order;
    }
  }
}
