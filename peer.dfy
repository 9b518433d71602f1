/**
 * The peer node: its request handlers over the node's blockchain object. The
 * survey view is an object of its own (a dictionary the handlers mutate in
 * place), the blockchain object holds the chain, the pending pool and a
 * reference to that view, and the node holds the reference to the current
 * blockchain object, which fork choice replaces wholesale.
 */
module Peer {
  import opened LedgerTypes
  import opened SurveyRules
  import opened Replay
  import opened Mining

  const Ok := 200
  const Created := 201
  const BadRequest := 400
  const NotFound := 404

  datatype Option<T> = None | Some(value: T)

  /** A JSON body of a transaction request. `None` stands for a key that is
      absent or holds a falsy value other than the ones kept below. */
  datatype Request = Request(txType: Option<string>, content: Option<Content>, timestamp: Option<real>)

  datatype Field = TypeField | ContentField | TimestampField

  /** The field is present and truthy: a non-empty type string, a content
      object, a non-zero timestamp. */
  predicate Truthy(req: Request, f: Field) {
    match f
    case TypeField => req.txType.Some? && req.txType.value != ""
    case ContentField => req.content.Some?
    case TimestampField => req.timestamp.Some? && req.timestamp.value != 0.0
  }

  const NewTransactionFields := [TypeField, ContentField]
  const GetTransactionFields := [TypeField, ContentField, TimestampField]

  /** The required-field check: stops at the first field that is missing. */
  method HasRequiredFields(req: Request, fields: seq<Field>) returns (ok: bool)
    ensures ok <==> forall i :: 0 <= i < |fields| ==> Truthy(req, fields[i])
  {
    for i := 0 to |fields|
      invariant forall j :: 0 <= j < i ==> Truthy(req, fields[j])
    {
      if !Truthy(req, fields[i]) {
        return false;
      }
    }
    return true;
  }

  /** The mining endpoint's answers: 0x001 (nothing pending), 0x002 (nothing
      survived validation), the 0x002 answer given for a block numbered 0, and
      the number of the mined block. */
  datatype MineResponse = NoPending | NoneValid | NoneToMine | Mined(index: int)

  /** The survey view as a mutable dictionary. */
  class SurveyMap {
    var entries: Surveys

    constructor ()
      ensures entries == map[]
    {
      entries := map[];
    }
  }

  /** compute_open_surveys: replays a block into the given view, in place.
      Every path through the body of its loop over the block's transactions
      returns, so only the first transaction is ever looked at. */
  method ComputeOpenSurveys(env: Services, block: Block, view: SurveyMap) returns (ok: bool)
    requires BlockDefined(env, view.entries, block)
    modifies view
    ensures (ok, view.entries) == ReplayBlock(env, old(view.entries), block)
  {
    if |block.transactions| == 0 {
      return true;
    }
    var tx := block.transactions[0];
    var c := tx.content;
    if !env.permits(c.author, tx.txType) {
      return false;
    }
    var kind := KindOf(tx.txType);
    if kind == Open {
      if c.questionid !in view.entries {
        view.entries := view.entries[c.questionid := c];
        return true;
      }
    } else if kind == Close {
      if c.questionid in view.entries && view.entries[c.questionid].author == c.author
        && view.entries[c.questionid].status == Opening
      {
        var s := view.entries[c.questionid];
        view.entries := view.entries[c.questionid := s.(status := Closed)];
        return true;
      }
    } else if kind == Vote {
      if c.questionid in view.entries && view.entries[c.questionid].status == Opening {
        var s := view.entries[c.questionid];
        var voters := s.answers[c.vote];
        if c.author !in voters {
          view.entries := view.entries[c.questionid := s.(answers := s.answers[c.vote := voters + [c.author]])];
          return true;
        }
      }
    } else if kind == SmartContract {
      return env.registers(c);
    } else {
      return true;
    }
    return false;
  }

  /** The answer /mine gives once the pool is validated: 0x002 when nothing was
      accepted, otherwise the new block's number (0x002 again for number 0). */
  function MineAnswer(last: Block, accepted: seq<Tx>): MineResponse {
    if accepted == [] then NoneValid
    else if last.index + 1 == 0 then NoneToMine
    else Mined(last.index + 1)
  }

  /** The node's blockchain object. */
  class Blockchain {
    var chain: seq<Block>
    var unconfirmed: seq<Tx>
    var openSurveys: SurveyMap

    /** A ledger holding only its genesis block, with nothing pending. */
    constructor (genesis: Block)
      ensures chain == [genesis] && unconfirmed == []
      ensures fresh(openSurveys) && openSurveys.entries == map[]
    {
      chain := [genesis];
      unconfirmed := [];
      openSurveys := new SurveyMap();
    }

    /** A ledger rebuilt from a peer's list of blocks, not yet checked. */
    constructor FromList(blocks: seq<Block>)
      ensures chain == blocks && unconfirmed == []
      ensures fresh(openSurveys) && openSurveys.entries == map[]
    {
      chain := blocks;
      unconfirmed := [];
      openSurveys := new SurveyMap();
    }

    function LastBlock(): Block
      reads this
      requires |chain| > 0
    {
      chain[|chain| - 1]
    }

    method AddNewTransaction(tx: Tx)
      modifies this`unconfirmed
      ensures unconfirmed == old(unconfirmed) + [tx]
    {
      unconfirmed := unconfirmed + [tx];
    }

    /** The end of /mine: empties the pool and, when something was accepted,
        builds the next block from it and appends it if the proof holds. */
    method Seal(env: Services, accepted: seq<Tx>, now: real, nonce: int, proof: string) returns (response: MineResponse)
      requires |chain| > 0
      modifies this`chain, this`unconfirmed
      ensures unconfirmed == [] && response == MineAnswer(old(LastBlock()), accepted)
      ensures var block := NextBlock(old(LastBlock()), accepted, now, nonce);
        chain == if accepted != [] && env.validProof(block, proof) then old(chain) + [block.(hash := proof)] else old(chain)
      ensures Linked(old(chain)) ==> Linked(chain)
    {
      var last := LastBlock();
      unconfirmed := [];
      if |accepted| == 0 {
        return NoneValid;
      }
      var block := NextBlock(last, accepted, now, nonce);
      var _ := AddBlock(env, block, proof);
      if block.index == 0 {
        return NoneToMine;
      }
      return Mined(block.index);
    }

    /** Appends the block sealed with `proof` when it links to the last block
      and the proof is valid; otherwise leaves the chain as it was. */
    method AddBlock(env: Services, block: Block, proof: string) returns (added: bool)
      requires |chain| > 0
      modifies this`chain
      ensures added <==> block.previousHash == old(LastBlock()).hash && env.validProof(block, proof)
      ensures chain == if added then old(chain) + [block.(hash := proof)] else old(chain)
      ensures Linked(old(chain)) ==> Linked(chain)
    {
      if block.previousHash != LastBlock().hash || !env.validProof(block, proof) {
        return false;
      }
      chain := chain + [block.(hash := proof)];
      return true;
    }
  }

  /** The block /mine builds from the accepted transactions: next index, linked
      to the last block, stamped with `now`, carrying the nonce its proof of
      work found. */
  function NextBlock(last: Block, accepted: seq<Tx>, now: real, nonce: int): (b: Block)
    ensures b.index == last.index + 1 && b.previousHash == last.hash
    ensures b.transactions == accepted
  {
    Block(last.index + 1, accepted, now, last.hash, nonce, "")
  }

  /** Each block names the hash of the block before it. */
  ghost predicate Linked(chain: seq<Block>) {
    forall i :: 0 < i < |chain| ==> chain[i].previousHash == chain[i - 1].hash
  }

  /** A reported chain that fork choice goes on to replay: longer by the
      reported length, and valid. */
  predicate ForkCandidate(env: Services, localLength: nat, length: int, reported: seq<Block>) {
    localLength < length && env.validChain(reported)
  }

  /** The peer process: the current blockchain object. */
  class Node {
    var blockchain: Blockchain

    constructor (genesis: Block)
      ensures fresh(blockchain) && fresh(blockchain.openSurveys)
      ensures blockchain.chain == [genesis] && blockchain.unconfirmed == []
      ensures blockchain.openSurveys.entries == map[]
    {
      blockchain := new Blockchain(genesis);
    }

    /** /new_transaction: stamps the transaction with `now` and queues it. */
    method NewTransaction(req: Request, now: real) returns (status: int)
      modifies blockchain`unconfirmed
      ensures var ok := Truthy(req, TypeField) && Truthy(req, ContentField);
        && status == (if ok then Created else NotFound)
        && blockchain.unconfirmed ==
             if ok then old(blockchain.unconfirmed) + [Tx(req.txType.value, req.content.value, now)]
             else old(blockchain.unconfirmed)
    {
      var ok := HasRequiredFields(req, NewTransactionFields);
      assert NewTransactionFields[0] == TypeField && NewTransactionFields[1] == ContentField;
      if !ok {
        return NotFound;
      }
      blockchain.AddNewTransaction(Tx(req.txType.value, req.content.value, now));
      return Created;
    }

    /** /get_transaction: queues a transaction another node received, keeping
        its timestamp. */
    method GetTransaction(req: Request) returns (status: int)
      modifies blockchain`unconfirmed
      ensures var ok := Truthy(req, TypeField) && Truthy(req, ContentField) && Truthy(req, TimestampField);
        && status == (if ok then Created else NotFound)
        && blockchain.unconfirmed ==
             if ok then old(blockchain.unconfirmed) + [Tx(req.txType.value, req.content.value, req.timestamp.value)]
             else old(blockchain.unconfirmed)
    {
      var ok := HasRequiredFields(req, GetTransactionFields);
      assert GetTransactionFields[0] == TypeField && GetTransactionFields[1] == ContentField;
      assert GetTransactionFields[2] == TimestampField;
      if !ok {
        return NotFound;
      }
      blockchain.AddNewTransaction(Tx(req.txType.value, req.content.value, req.timestamp.value));
      return Created;
    }

    /** validate_transaction: checks one transaction against the live view and
        applies it there in place. */
    method ValidateTransaction(env: Services, tx: Tx) returns (v: Verdict)
      requires VoteKeyKnown(env, blockchain.openSurveys.entries, tx)
      modifies blockchain.openSurveys
      ensures (v, blockchain.openSurveys.entries) == Validate(env, old(blockchain.openSurveys.entries), tx)
    {
      var view := blockchain.openSurveys;
      var c := tx.content;
      if !env.permits(c.author, tx.txType) {
        return Rejected;
      }
      var kind := KindOf(tx.txType);
      if kind == Open {
        if c.questionid in view.entries {
          return Rejected;
        }
        view.entries := view.entries[c.questionid := c];
        return Accepted;
      } else if kind == Close {
        if c.questionid in view.entries && view.entries[c.questionid].author == c.author
          && view.entries[c.questionid].status == Opening
        {
          var s := view.entries[c.questionid];
          view.entries := view.entries[c.questionid := s.(status := Closed)];
          return Accepted;
        }
        return Rejected;
      } else if kind == Vote {
        if c.questionid in view.entries && view.entries[c.questionid].status == Opening {
          var s := view.entries[c.questionid];
          var voters := s.answers[c.vote];
          if c.author !in voters {
            view.entries := view.entries[c.questionid := s.(answers := s.answers[c.vote := voters + [c.author]])];
            return Accepted;
          }
          return Rejected;
        }
      } else if kind == SmartContract {
        return if env.registers(c) then Accepted else Rejected;
      } else if kind == Execute {
        return if env.dispatches(c) then Accepted else Rejected;
      }
      return NoVerdict;
    }

    /** /mine: validates the pending pool into a new block linked to the last
        one, sealed with the proof of work found for `nonce`. */
    method Mine(env: Services, now: real, nonce: int, proof: string) returns (response: MineResponse)
      requires blockchain.unconfirmed != [] ==> |blockchain.chain| > 0
      requires FilterDefined(env, blockchain.openSurveys.entries, blockchain.unconfirmed)
      modifies blockchain`chain, blockchain`unconfirmed, blockchain.openSurveys
      ensures var pending, start := old(blockchain.unconfirmed), old(blockchain.openSurveys.entries);
        if pending == [] then
          && response == NoPending
          && blockchain.chain == old(blockchain.chain)
          && blockchain.unconfirmed == old(blockchain.unconfirmed)
          && blockchain.openSurveys.entries == start
        else
          var r := FilterPending(env, start, pending);
          var block := NextBlock(old(blockchain.LastBlock()), r.0, now, nonce);
          && blockchain.unconfirmed == []
          && blockchain.openSurveys.entries == r.1
          && response == MineAnswer(old(blockchain.LastBlock()), r.0)
          && blockchain.chain ==
               if r.0 != [] && env.validProof(block, proof) then old(blockchain.chain) + [block.(hash := proof)]
               else old(blockchain.chain)
      ensures Linked(old(blockchain.chain)) ==> Linked(blockchain.chain)
    {
      if blockchain.unconfirmed == [] {
        return NoPending;
      }
      ghost var expected := FilterPending(env, blockchain.openSurveys.entries, blockchain.unconfirmed);
      var accepted := ValidatePending(env);
      assert accepted == expected.0 && blockchain.openSurveys.entries == expected.1;
      response := blockchain.Seal(env, accepted, now, nonce, proof);
    }

    /** The loop of /mine over the pending pool: validates each transaction
        against the live view, in pool order, and keeps the accepted ones. */
    method ValidatePending(env: Services) returns (accepted: seq<Tx>)
      requires FilterDefined(env, blockchain.openSurveys.entries, blockchain.unconfirmed)
      modifies blockchain.openSurveys
      ensures (accepted, blockchain.openSurveys.entries)
        == FilterPending(env, old(blockchain.openSurveys.entries), blockchain.unconfirmed)
    {
      var pending := blockchain.unconfirmed;
      ghost var start := blockchain.openSurveys.entries;
      accepted := [];
      var i := 0;
      while i < |pending|
        invariant 0 <= i <= |pending|
        invariant FilterDefined(env, start, pending[..i])
        invariant (accepted, blockchain.openSurveys.entries) == FilterPending(env, start, pending[..i])
      {
        FilterPrefixStep(env, start, pending, i);
        var v := ValidateTransaction(env, pending[i]);
        if v == Accepted {
          accepted := accepted + [pending[i]];
        }
        i := i + 1;
      }
      assert pending[..i] == pending;
    }

    /** /add_block: replays a block received from the network into the live
        view (through an alias of it, so its effect stays whether or not the
        block is then appended), then tries to append it with its hash as proof. */
    method ValidateAndAddBlock(env: Services, data: Block) returns (status: int)
      requires BlockDefined(env, blockchain.openSurveys.entries, data)
      requires ReplayBlock(env, blockchain.openSurveys.entries, data).0 ==> |blockchain.chain| > 0
      modifies blockchain`chain, blockchain`openSurveys, blockchain.openSurveys
      ensures blockchain.openSurveys == old(blockchain.openSurveys)
      ensures var r := ReplayBlock(env, old(blockchain.openSurveys.entries), data);
        blockchain.openSurveys.entries == r.1
      ensures var r := ReplayBlock(env, old(blockchain.openSurveys.entries), data);
        var block := data.(hash := "");
        var added := r.0 && block.previousHash == old(blockchain.LastBlock()).hash && env.validProof(block, data.hash);
        && status == (if added then Created else BadRequest)
        && blockchain.chain == if added then old(blockchain.chain) + [data] else old(blockchain.chain)
    {
      var block := Block(data.index, data.transactions, data.timestamp, data.previousHash, data.nonce, "");
      var tmpOpenSurveys := blockchain.openSurveys;
      var ok := ComputeOpenSurveys(env, block, tmpOpenSurveys);
      if !ok {
        return BadRequest;
      }
      blockchain.openSurveys := tmpOpenSurveys;
      var added := blockchain.AddBlock(env, block, data.hash);
      if !added {
        return BadRequest;
      }
      return Created;
    }

    /** Fork choice, shared by /open_surveys and /chain: adopts the reported
        chain when it is longer by the reported length, valid, and replays
        block by block from an empty view; answers 400 when such a chain fails
        to replay, leaving the current blockchain object in place. */
    method Reconcile(env: Services, length: int, reported: seq<Block>) returns (status: int)
      requires ForkCandidate(env, |blockchain.chain|, length, reported) ==> ChainDefined(env, map[], reported)
      modifies this
      ensures var candidate := ForkCandidate(env, |old(blockchain.chain)|, length, reported);
        && (status == BadRequest <==> candidate && !ReplayChain(env, map[], reported).0)
        && (status != BadRequest ==> status == Ok)
        && (candidate && ReplayChain(env, map[], reported).0 ==>
              && fresh(blockchain) && fresh(blockchain.openSurveys)
              && blockchain.chain == reported && blockchain.unconfirmed == []
              && blockchain.openSurveys.entries == ReplayChain(env, map[], reported).1)
        && (!(candidate && ReplayChain(env, map[], reported).0) ==> blockchain == old(blockchain))
    {
      var longest := new Blockchain.FromList(reported);
      if |blockchain.chain| < length && env.validChain(longest.chain) {
        longest.openSurveys := new SurveyMap();
        var i := 0;
        while i < |longest.chain|
          invariant 0 <= i <= |reported| && longest.chain == reported
          invariant fresh(longest) && fresh(longest.openSurveys)
          invariant longest.unconfirmed == [] && blockchain == old(blockchain)
          invariant ChainDefined(env, map[], reported[..i])
          invariant ReplayChain(env, map[], reported[..i]) == (true, longest.openSurveys.entries)
        {
          ReplayChainStep(env, map[], reported, i);
          var ok := ComputeOpenSurveys(env, longest.chain[i], longest.openSurveys);
          if !ok {
            ReplayChainPrefix(env, map[], reported, i + 1);
            return BadRequest;
          }
          i := i + 1;
        }
        assert reported[..i] == reported;
        blockchain := longest;
      }
      return Ok;
    }

    /** /open_surveys: fork choice, then the surveys of the current view. */
    method GetOpenSurveys(env: Services, length: int, reported: seq<Block>) returns (status: int, surveys: Surveys)
      requires ForkCandidate(env, |blockchain.chain|, length, reported) ==> ChainDefined(env, map[], reported)
      modifies this
      ensures var candidate := ForkCandidate(env, |old(blockchain.chain)|, length, reported);
        && (status == BadRequest <==> candidate && !ReplayChain(env, map[], reported).0)
        && (status != BadRequest ==> status == Ok && surveys == blockchain.openSurveys.entries)
        && (candidate && ReplayChain(env, map[], reported).0 ==>
              && fresh(blockchain) && fresh(blockchain.openSurveys)
              && blockchain.chain == reported && blockchain.unconfirmed == []
              && surveys == ReplayChain(env, map[], reported).1)
        && (!(candidate && ReplayChain(env, map[], reported).0) ==> blockchain == old(blockchain))
        && (!candidate ==> surveys == old(blockchain.openSurveys.entries))
    {
      surveys := map[];
      status := Reconcile(env, length, reported);
      if status == BadRequest {
        return;
      }
      surveys := blockchain.openSurveys.entries;
    }

    /** /chain: fork choice, then the current chain. */
    method GetChain(env: Services, length: int, reported: seq<Block>) returns (status: int, chain: seq<Block>)
      requires ForkCandidate(env, |blockchain.chain|, length, reported) ==> ChainDefined(env, map[], reported)
      modifies this
      ensures var candidate := ForkCandidate(env, |old(blockchain.chain)|, length, reported);
        && (status == BadRequest <==> candidate && !ReplayChain(env, map[], reported).0)
        && (status != BadRequest ==> status == Ok && chain == blockchain.chain)
        && (candidate && ReplayChain(env, map[], reported).0 ==>
              && fresh(blockchain) && fresh(blockchain.openSurveys)
              && chain == reported && blockchain.unconfirmed == []
              && blockchain.openSurveys.entries == ReplayChain(env, map[], reported).1)
        && (!(candidate && ReplayChain(env, map[], reported).0) ==> blockchain == old(blockchain))
        && (!candidate ==> chain == old(blockchain.chain))
    {
      chain := [];
      status := Reconcile(env, length, reported);
      if status == BadRequest {
        return;
      }
      chain := blockchain.chain;
    }
  }

  /** One more pending transaction: validation of the longer prefix raises
      nothing either, and extends the shorter one's result by one step. */
  lemma FilterPrefixStep(env: Services, m: Surveys, txs: seq<Tx>, i: nat)
    requires i < |txs| && FilterDefined(env, m, txs)
    ensures FilterDefined(env, m, txs[..i]) && FilterDefined(env, m, txs[..i + 1])
    ensures VoteKeyKnown(env, FilterPending(env, m, txs[..i]).1, txs[i])
    ensures var prev := FilterPending(env, m, txs[..i]);
      var step := Validate(env, prev.1, txs[i]);
      FilterPending(env, m, txs[..i + 1]) == (if step.0 == Accepted then prev.0 + [txs[i]] else prev.0, step.1)
  {
    FilterPrefixDefined(env, m, txs, i + 1);
    assert txs[..i + 1][..i] == txs[..i];
  }

  lemma {:induction false} FilterPrefixDefined(env: Services, m: Surveys, txs: seq<Tx>, k: nat)
    requires FilterDefined(env, m, txs) && k <= |txs|
    ensures FilterDefined(env, m, txs[..k])
    decreases |txs|
  {
    if k < |txs| {
      FilterPrefixDefined(env, m, txs[..|txs| - 1], k);
      assert txs[..|txs| - 1][..k] == txs[..k];
    } else {
      assert txs[..k] == txs;
    }
  }
}
