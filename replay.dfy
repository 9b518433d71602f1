/**
 * Replaying blocks into a survey view (compute_open_surveys) and replaying a
 * whole chain from an empty view, as fork choice does before adopting a chain.
 *
 * compute_open_surveys returns from inside its loop on every path, so a block's
 * outcome and effect are those of its first transaction alone; an empty block
 * succeeds without effect.
 */
module Replay {
  import opened LedgerTypes
  import opened SurveyRules

  /** The replay of a block raises nothing: its first transaction, if any, is
      not a vote that names an unknown answer key. */
  predicate BlockDefined(env: Services, m: Surveys, b: Block) {
    |b.transactions| > 0 ==> VoteKeyKnown(env, m, b.transactions[0])
  }

  function ReplayBlock(env: Services, m: Surveys, b: Block): (r: (bool, Surveys))
    requires BlockDefined(env, m, b)
    ensures |b.transactions| == 0 ==> r == (true, m)
    ensures !r.0 ==> r.1 == m
    ensures Evolves(m, r.1)
    ensures |b.transactions| > 0 ==> !Permitted(env, b.transactions[0]) ==> !r.0
  {
    if |b.transactions| == 0 then (true, m) else ReplayTx(env, m, b.transactions[0])
  }

  /** Only the first transaction of a block is looked at: two blocks that start
      with the same transaction replay alike, whatever follows it. */
  lemma ReplayBlockFirstDecides(env: Services, m: Surveys, b: Block, b': Block)
    requires |b.transactions| > 0 && |b'.transactions| > 0
    requires b.transactions[0] == b'.transactions[0]
    requires BlockDefined(env, m, b)
    ensures BlockDefined(env, m, b')
    ensures ReplayBlock(env, m, b) == ReplayBlock(env, m, b')
  {
  }

  /** As written, a block that opens the same question twice replays
      successfully: the duplicate `open` that mining would reject is never
      looked at, and only the first `open` takes effect. */
  lemma DuplicateOpenBlockReplays(env: Services, m: Surveys, tx: Tx, b: Block)
    requires Permitted(env, tx) && KindOf(tx.txType) == Open && tx.content.questionid !in m
    requires b.transactions == [tx, tx]
    ensures BlockDefined(env, m, b)
    ensures ReplayBlock(env, m, b) == (true, m[tx.content.questionid := tx.content])
    ensures Validate(env, Validate(env, m, tx).1, tx).0 == Rejected
  {
  }

  /** The replay of a chain raises nothing up to the first block that fails. */
  predicate ChainDefined(env: Services, m: Surveys, bs: seq<Block>)
    decreases |bs|, 0
  {
    |bs| == 0 ||
    (var init := bs[..|bs| - 1];
     && ChainDefined(env, m, init)
     && (ReplayChain(env, m, init).0 ==> BlockDefined(env, ReplayChain(env, m, init).1, bs[|bs| - 1])))
  }

  /** Replay of every block in order, stopping at the first block that fails;
      the view returned on failure is the partly updated scratch view. */
  function ReplayChain(env: Services, m: Surveys, bs: seq<Block>): (r: (bool, Surveys))
    requires ChainDefined(env, m, bs)
    ensures Evolves(m, r.1)
    ensures |bs| == 0 ==> r == (true, m)
    decreases |bs|, 1
  {
    if |bs| == 0 then (true, m)
    else
      var init := bs[..|bs| - 1];
      var prev := ReplayChain(env, m, init);
      if !prev.0 then prev
      else
        var last := ReplayBlock(env, prev.1, bs[|bs| - 1]);
        EvolvesTransitive(m, prev.1, last.1);
        last
  }

  /** Replay of a chain succeeds only if the replay of each of its prefixes
      does: one failing block makes the whole chain fail. */
  lemma {:induction false} ReplayChainPrefix(env: Services, m: Surveys, bs: seq<Block>, k: nat)
    requires ChainDefined(env, m, bs) && k <= |bs|
    ensures ChainDefined(env, m, bs[..k])
    ensures ReplayChain(env, m, bs).0 ==> ReplayChain(env, m, bs[..k]).0
    decreases |bs|
  {
    if k < |bs| {
      var init := bs[..|bs| - 1];
      ReplayChainPrefix(env, m, init, k);
      assert init[..k] == bs[..k];
    } else {
      assert bs[..k] == bs;
    }
  }

  /** Replaying one more block continues from where the prefix left off. */
  lemma ReplayChainStep(env: Services, m: Surveys, bs: seq<Block>, i: nat)
    requires i < |bs| && ChainDefined(env, m, bs)
    ensures ChainDefined(env, m, bs[..i]) && ChainDefined(env, m, bs[..i + 1])
    ensures ReplayChain(env, m, bs[..i]).0 ==>
      && BlockDefined(env, ReplayChain(env, m, bs[..i]).1, bs[i])
      && ReplayChain(env, m, bs[..i + 1]) == ReplayBlock(env, ReplayChain(env, m, bs[..i]).1, bs[i])
  {
    ReplayChainPrefix(env, m, bs, i + 1);
    assert bs[..i + 1][..i] == bs[..i];
  }

  /** A chain of empty blocks always replays, and leaves the view as it was. */
  lemma {:induction false} EmptyBlocksReplay(env: Services, m: Surveys, bs: seq<Block>)
    requires forall i :: 0 <= i < |bs| ==> |bs[i].transactions| == 0
    ensures ChainDefined(env, m, bs)
    ensures ReplayChain(env, m, bs) == (true, m)
    decreases |bs|
  {
    if |bs| > 0 {
      EmptyBlocksReplay(env, m, bs[..|bs| - 1]);
    }
  }
}
