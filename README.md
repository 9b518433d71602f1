# Survey-ledger peer, modelled in Dafny

This project models the core of a peer in a permissioned voting ledger
(`bcb_server/peer.py`). The peer keeps a hash-linked chain of blocks, a pool
of pending transactions, and a survey view. The survey view maps a question id
to a survey record: its `author`, its `status` and its `answers`. `answers`
maps an answer key to the list of authors who voted for it.

Transactions have a type (`open`, `close`, `vote`, `smartcontract`,
`execute`), matched case-insensitively, and a content object. An external
authorization service must accept `(author, type)` before anything else is
looked at. The model covers:

- the transaction state machine, in its two forms:
  - live validation while mining (`validate_transaction`);
  - block replay (`compute_open_surveys`), which returns from inside its loop,
    so only a block's first transaction is checked and applied;
- mining: the pending pool is filtered through live validation in pool order,
  the pool is cleared, and a block linked to the last block is built;
- fork choice: a reported chain is adopted only if it is longer by the
  reported length, passes the chain-validity check, and replays block by block
  from an empty survey view;
- `/add_block`: the replay writes through an alias of the live survey
  dictionary, so its effect stays even when the block is then refused;
- the required-field checks of `/new_transaction` and `/get_transaction`.

Layout:

- `types.dfy` (`LedgerTypes`): content, transactions, blocks, the external
  services, case-insensitive typing.
- `survey_rules.dfy` (`SurveyRules`): `Validate` and `ReplayTx`, one
  transaction against a survey view, and their rules.
- `replay.dfy` (`Replay`): block and chain replay.
- `mining.dfy` (`Mining`): the pending-pool filter.
- `peer.dfy` (`Peer`): the imperative node. `SurveyMap` is the mutable
  survey dictionary. `Blockchain` holds the chain, the pending pool and a
  reference to the dictionary. `Node` holds the reference to the current
  `Blockchain`, which fork choice replaces. Each handler is proved against the
  functions above.

Behaviour of the code worth noting:

- An `open` stores the transaction content as the survey record as it is. It
  does not set `status` or build the answer lists itself.
- Replay checks only the first transaction of each block, not every one
  (`Replay.DuplicateOpenBlockReplays`).
- `/add_block` commits the survey changes before it knows whether the block is
  appended.
- Replay accepts an authorized `execute`, or a type it does not know, without
  running anything. Live validation gives an unknown type no verdict.
- Voter lists are lists, not sets. A voter may vote for several answers of one
  survey.

External services are parameters (`LedgerTypes.Services`):

- the authorization decision;
- whether running a smartcontract's code succeeds;
- whether an `execute` finds its contract and starts its thread;
- the ledger's proof check;
- the ledger's chain-validity check.

The current time and the proof of work found for a mined block
(`nonce`, `proof`) are method inputs. The orderer's reply is the pair
`(length, reported)`.

## Model

| member | source | states |
|---|---|---|
| `LedgerTypes.Lower` | bcb_server/peer.py:243 | Lower-casing keeps the length, turns every ASCII capital into its small letter and keeps every other character, so no upper-case letter is left. |
| `LedgerTypes.KindOfIgnoresCase` | bcb_server/peer.py:243-273 | A transaction type is read case-insensitively: its lower-cased form has the same kind. |
| `SurveyRules.Validate` | bcb_server/peer.py:231-278 | An unauthorized transaction is rejected. Anything not accepted leaves the view unchanged. Only the transaction's own question id can change or appear. No survey disappears, changes author, reopens, changes answer keys or loses a vote. |
| `SurveyRules.OpenRule` | bcb_server/peer.py:243-248 | An authorized `open` is accepted iff its question id is new. It then stores the content under that id and nothing else; otherwise it is rejected with the view unchanged. |
| `SurveyRules.CloseRule` | bcb_server/peer.py:249-254 | An authorized `close` is accepted iff the survey exists, the requester is its author and it is `opening`. It then sets only that status to `closed`; otherwise it is rejected with no change. |
| `SurveyRules.VoteRule` | bcb_server/peer.py:255-263 | A vote on a missing or closed survey gets no verdict and changes nothing. On an open survey it is accepted iff the author is not in that answer's list, and then appends the author there; otherwise it is rejected with no change. |
| `SurveyRules.RepeatedVoteRejected` | bcb_server/peer.py:258-263 | Casting an accepted vote a second time is rejected and leaves the view unchanged. |
| `SurveyRules.UnknownTypeRule` | bcb_server/peer.py:243-278 | A type outside the five known ones is never accepted by live validation and changes nothing. |
| `SurveyRules.ValidateKeepsVotersDistinct` | bcb_server/peer.py:255-263 | If no answer list repeats a voter, none does after validation, provided an `open` brings in lists without repeats. |
| `SurveyRules.SurveyScenario` | bcb_server/peer.py:243-263 | An author opens survey `q` with answers yes and no on an empty view, and it is stored. Another author's vote for yes is accepted, giving `yes == [voter]` and `no == []`. That voter's close of the survey is rejected with the view unchanged and the survey still `opening`. |
| `SurveyRules.ReplayTx` | bcb_server/peer.py:282-320 | Replay of one transaction: unauthorized means failure, failure means no change, and only the transaction's question id is touched. The view evolves as under validation. |
| `SurveyRules.ReplayAgreesWithValidate` | bcb_server/peer.py:293-317 | For open, close, vote and smartcontract, replay accepts exactly what live validation accepts, with the same new view. |
| `SurveyRules.ReplayAcceptsValidated` | bcb_server/peer.py:318-319 | Replay accepts whatever validation accepts, with the same effect. It also accepts an authorized `execute` or unknown type, without effect. |
| `Replay.ReplayBlock` | bcb_server/peer.py:281-321 | An empty block replays successfully without effect. A failed replay changes nothing. An unauthorized first transaction fails the block. |
| `Replay.ReplayBlockFirstDecides` | bcb_server/peer.py:282-320 | Two blocks with the same first transaction replay identically, whatever follows it. |
| `Replay.DuplicateOpenBlockReplays` | bcb_server/peer.py:293-297 | A block that opens the same question twice replays successfully with one open applied, although validation rejects the second open. |
| `Replay.ReplayChain` | bcb_server/peer.py:79-81 | Replaying a chain evolves the view monotonically, and the empty chain replays without effect. |
| `Replay.ReplayChainPrefix` | bcb_server/peer.py:79-81 | If a chain replays successfully, so does every prefix of it. One failing block fails the chain. |
| `Replay.EmptyBlocksReplay` | bcb_server/peer.py:321 | A chain of empty blocks always replays and leaves the view unchanged. |
| `Mining.FilterPending` | bcb_server/peer.py:157-162 | No more transactions are kept than are pending. If none is accepted the view is unchanged. The view evolves monotonically. |
| `Mining.FilterKeepsOrder` | bcb_server/peer.py:157-162 | The mined transactions are a subsequence of the pending pool, in pool order. |
| `Mining.FilterNonePermitted` | bcb_server/peer.py:157-160 | If no pending transaction is authorized, nothing is kept and the view is unchanged. |
| `Mining.FilterKeepsVotersDistinct` | bcb_server/peer.py:157-162 | Mining keeps every answer list free of repeated voters, provided the pool's opens bring in lists without repeats. |
| `Mining.FirstMinedAcceptedAtStart` | bcb_server/peer.py:157-162 | The first mined transaction is accepted against the view mining started from. |
| `Mining.MinedBlockReplays` | bcb_server/peer.py:152-162 | A block holding what was just mined replays successfully from the pre-mining view, with its first transaction's effect. |
| `Peer.HasRequiredFields` | bcb_server/peer.py:29-33 | The check passes iff every listed field is present and truthy. |
| `Peer.ComputeOpenSurveys` | bcb_server/peer.py:281-321 | Replays a block into the given dictionary in place. Verdict and new contents are those of `ReplayBlock`. |
| `Peer.Blockchain.FromList` | bcb_server/peer.py:71 | The rebuilt ledger holds the reported blocks, an empty pending pool and a fresh, empty survey dictionary. |
| `Peer.Blockchain.AddNewTransaction` | bcb_server/peer.py:37 | The pending pool gains the transaction at its end. |
| `Peer.Blockchain.AddBlock` | bcb_server/peer.py:207-208 | Appends the block sealed with the proof iff it links to the last block's hash and the proof is valid; otherwise the chain is unchanged. Keeps the chain hash-linked. |
| `Peer.Node.NewTransaction` | bcb_server/peer.py:27-42 | 404 and pool unchanged iff `type` or `content` is missing or falsy. Otherwise 201, and the transaction, stamped with the current time, is appended to the pool. |
| `Peer.Node.GetTransaction` | bcb_server/peer.py:46-56 | 404 and pool unchanged iff `type`, `content` or `timestamp` is missing or falsy. Otherwise 201, and the transaction with its own timestamp is appended to the pool. |
| `Peer.Node.ValidateTransaction` | bcb_server/peer.py:231-278 | Updates the live survey dictionary in place. Verdict and new contents are those of `Validate`. |
| `Peer.Node.ValidatePending` | bcb_server/peer.py:157-162 | The loop over the pool: the accepted transactions and the new live view are those of `FilterPending`. |
| `Peer.Blockchain.Seal` | bcb_server/peer.py:150-180 | The pool is emptied. With nothing accepted the answer is 0x002 and the chain is unchanged. Otherwise the next block (index `last.index + 1`, `previous_hash = last.hash`, exactly the accepted transactions) is appended iff its proof is valid, and its number is returned (0x002 for number 0). The chain stays hash-linked. |
| `Peer.Node.Mine` | bcb_server/peer.py:139-180 | Empty pool: 0x001 with chain, pool and view unchanged, and no last block needed. Otherwise the pool is emptied and the view is the filter's result. None accepted: 0x002 with the chain unchanged. Else the block holds exactly the accepted transactions, with index `last.index + 1` and `previous_hash = last.hash`; it is appended iff the proof is valid, and its number is returned (0x002 for number 0). |
| `Peer.Node.ValidateAndAddBlock` | bcb_server/peer.py:186-214 | The live view always becomes the block's replay result. 201 and the block appended iff replay succeeds, the block links to the last block and its hash is a valid proof. Otherwise 400 with the chain unchanged. A failed replay answers 400 before the last block is read, so only a replay that succeeds needs a non-empty chain. |
| `Peer.Node.Reconcile` | bcb_server/peer.py:69-83 | 400 iff the reported chain is a candidate (the local chain is shorter than the reported length and the chain is valid) that fails replay. A candidate that replays is adopted as a fresh object holding the chain and its replayed view. In every other case the node keeps its current blockchain object. |
| `Peer.Node.GetOpenSurveys` | bcb_server/peer.py:61-90 | After fork choice: 400 iff a candidate chain fails replay, otherwise 200 with the current survey view. A candidate that replays is adopted as a fresh object holding the reported chain, an empty pool and the replayed view, which is returned. Without a candidate, or on 400, the node keeps its blockchain object; without a candidate the old view is returned. |
| `Peer.Node.GetChain` | bcb_server/peer.py:96-122 | After fork choice: 400 iff a candidate chain fails replay, otherwise 200 with the current chain. A candidate that replays is adopted as a fresh object holding the reported chain, which is returned, an empty pool and the replayed view. Without a candidate, or on 400, the node keeps its blockchain object; without a candidate the local chain is returned. |

## Left out

- HTTP routing, JSON encoding (`jsonify`, `__dict__`) and the calls to the orderer are not modelled. This includes broadcasting a new transaction or block and the `/list_nodes` proxy. They are I/O.
- `/pending_tx` and `/local_chain` are not modelled. They only read state.
- `smartcontract` and `execute` are modelled as success or failure inputs. The contract registry (`chain_code`), what `exec` does to it, and the detached thread are not modelled. They are arbitrary code execution and concurrency.
- `block.py` and `blockchain.py` are not part of this model. `proof_of_work` is replaced by the `nonce` and `proof` given to `Mine`. The proof check and `check_chain_validity` are service predicates. `fromList` is assumed to give a fresh ledger with an empty pending pool and an empty survey view. Hashing is not modelled.
- `time.time()` is an input. Timestamps are reals.
- `join_to_network`, its retry loop, and argument parsing are not modelled. They are bootstrap code.
- A vote whose answer key is absent from the survey raises `KeyError`. This is a precondition (`VoteKeyKnown`, `BlockDefined`, `ChainDefined`, `FilterDefined`), not a behaviour.
- Other missing content keys are not modelled, because content is a record that has every key. A falsy `content` other than a missing one (an empty object) is represented as absent.
- Survey records alias transaction contents and are not modelled that way. In the source, an accepted `open` stores its content dict itself. Later `close` and `vote` transactions mutate that dict in place, which also rewrites the `open` transaction already held in a block or pending list. The model uses values, so recorded transactions never change.
- Lower-casing covers ASCII letters only.
- Reading `last_block` on an empty chain raises. `Mine` requires a non-empty chain only when the pool is not empty, and `ValidateAndAddBlock` only when the block replays, since only then is `last_block` read. The error itself is not modelled.
- The survey list that `/open_surveys` returns is given as the survey map. Dictionary order is not modelled.
- Concurrent requests are not modelled. Each handler runs to completion alone.
