/**
 * What mining does to the pending pool before any block is built: every pending
 * transaction, in pool order, goes through live validation against the survey
 * view as the earlier ones left it; the accepted ones are kept in order and the
 * rest are dropped.
 */
module Mining {
  import opened LedgerTypes
  import opened SurveyRules
  import opened Replay

  /** Validation of the pool raises nothing: no vote reaching the answer
      lookup names an unknown answer key. */
  predicate FilterDefined(env: Services, m: Surveys, txs: seq<Tx>)
    decreases |txs|, 0
  {
    |txs| == 0 ||
    (var init := txs[..|txs| - 1];
     && FilterDefined(env, m, init)
     && VoteKeyKnown(env, FilterPending(env, m, init).1, txs[|txs| - 1]))
  }

  /** The accepted transactions, in pool order, and the survey view after
      validating the whole pool. */
  function FilterPending(env: Services, m: Surveys, txs: seq<Tx>): (r: (seq<Tx>, Surveys))
    requires FilterDefined(env, m, txs)
    ensures |r.0| <= |txs|
    ensures r.0 == [] ==> r.1 == m
    ensures Evolves(m, r.1)
    decreases |txs|, 1
  {
    if |txs| == 0 then ([], m)
    else
      var init := txs[..|txs| - 1];
      var tx := txs[|txs| - 1];
      var prev := FilterPending(env, m, init);
      var step := Validate(env, prev.1, tx);
      EvolvesTransitive(m, prev.1, step.1);
      (if step.0 == Accepted then prev.0 + [tx] else prev.0, step.1)
  }

  /** `a` is `b` with some elements left out, the rest in their order. */
  predicate IsSubsequence(a: seq<Tx>, b: seq<Tx>)
    decreases |b|
  {
    if |a| == 0 then true
    else if |b| == 0 then false
    else if a[|a| - 1] == b[|b| - 1] then IsSubsequence(a[..|a| - 1], b[..|b| - 1])
    else IsSubsequence(a, b[..|b| - 1])
  }

  lemma {:induction false} SubsequenceExtend(a: seq<Tx>, b: seq<Tx>, x: Tx)
    requires IsSubsequence(a, b)
    ensures IsSubsequence(a, b + [x])
    decreases |b|, 1
  {
    assert (b + [x])[..|b|] == b;
    if |a| > 0 && a[|a| - 1] == x {
      SubsequenceDrop(a, b);
    }
  }

  lemma {:induction false} SubsequenceDrop(a: seq<Tx>, b: seq<Tx>)
    requires |a| > 0 && IsSubsequence(a, b)
    ensures IsSubsequence(a[..|a| - 1], b)
    decreases |b|, 0
  {
    var a', b' := a[..|a| - 1], b[..|b| - 1];
    if |a'| > 0 {
      assert b' + [b[|b| - 1]] == b;
      if a[|a| - 1] != b[|b| - 1] {
        SubsequenceDrop(a, b');
      }
      SubsequenceExtend(a', b', b[|b| - 1]);
    }
  }

  /** The mined transactions are pending transactions, in pool order. */
  lemma {:induction false} FilterKeepsOrder(env: Services, m: Surveys, txs: seq<Tx>)
    requires FilterDefined(env, m, txs)
    ensures IsSubsequence(FilterPending(env, m, txs).0, txs)
    decreases |txs|
  {
    if |txs| > 0 {
      var init := txs[..|txs| - 1];
      var tx := txs[|txs| - 1];
      FilterKeepsOrder(env, m, init);
      assert init + [tx] == txs;
      var acc := FilterPending(env, m, init).0;
      if Validate(env, FilterPending(env, m, init).1, tx).0 == Accepted {
        assert (acc + [tx])[..|acc|] == acc;
      } else {
        SubsequenceExtend(acc, init, tx);
      }
    }
  }

  /** When the authorization service accepts none of the pool, nothing is
      mined and the survey view is untouched. */
  lemma {:induction false} FilterNonePermitted(env: Services, m: Surveys, txs: seq<Tx>)
    requires forall i :: 0 <= i < |txs| ==> !Permitted(env, txs[i])
    ensures FilterDefined(env, m, txs)
    ensures FilterPending(env, m, txs) == ([], m)
    decreases |txs|
  {
    if |txs| > 0 {
      FilterNonePermitted(env, m, txs[..|txs| - 1]);
    }
  }

  /** Mining keeps every answer list free of repeated voters, provided the
      surveys opened by the pool bring in lists without repeats. */
  lemma {:induction false} FilterKeepsVotersDistinct(env: Services, m: Surveys, txs: seq<Tx>)
    requires FilterDefined(env, m, txs)
    requires VotersDistinct(m)
    requires forall i :: 0 <= i < |txs| ==> OpensDistinct(txs[i])
    ensures VotersDistinct(FilterPending(env, m, txs).1)
    decreases |txs|
  {
    if |txs| > 0 {
      var init := txs[..|txs| - 1];
      FilterKeepsVotersDistinct(env, m, init);
      ValidateKeepsVotersDistinct(env, FilterPending(env, m, init).1, txs[|txs| - 1]);
    }
  }

  /** The first mined transaction was accepted against the view mining started
      from, since every transaction rejected before it left the view as it was. */
  lemma {:induction false} FirstMinedAcceptedAtStart(env: Services, m: Surveys, txs: seq<Tx>)
    requires FilterDefined(env, m, txs)
    requires FilterPending(env, m, txs).0 != []
    ensures VoteKeyKnown(env, m, FilterPending(env, m, txs).0[0])
    ensures Validate(env, m, FilterPending(env, m, txs).0[0]).0 == Accepted
    decreases |txs|
  {
    var init := txs[..|txs| - 1];
    if FilterPending(env, m, init).0 != [] {
      FirstMinedAcceptedAtStart(env, m, init);
    }
  }

  /** A block holding what was just mined replays successfully against the view
      mining started from, with the effect of its first transaction. */
  lemma MinedBlockReplays(env: Services, m: Surveys, txs: seq<Tx>, b: Block)
    requires FilterDefined(env, m, txs)
    requires b.transactions == FilterPending(env, m, txs).0 && b.transactions != []
    ensures BlockDefined(env, m, b)
    ensures ReplayBlock(env, m, b) == (true, Validate(env, m, b.transactions[0]).1)
  {
    FirstMinedAcceptedAtStart(env, m, txs);
    ReplayAcceptsValidated(env, m, b.transactions[0]);
  }
}
