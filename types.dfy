/**
 * Values a survey-ledger peer works with: the content of a transaction (which,
 * once an `open` is accepted, is also the survey record), transactions, blocks,
 * the external services the peer consults, and the case-insensitive reading of a
 * transaction's type.
 */
module LedgerTypes {

  /** The `content` object of a transaction. An accepted `open` stores this very
      record as the survey, so it also carries the survey's `status` and its
      `answers`, which map an answer key to the list of authors who voted for it. */
  datatype Content = Content(
    author: string,
    questionid: string,
    vote: string,
    status: string,
    answers: map<string, seq<string>>,
    code: string,
    contract: string)

  /** A survey record is the content of the `open` transaction that created it. */
  type Survey = Content

  /** A transaction as held in the pending pool and inside blocks. `txType` is the
      raw string the client sent; it is matched case-insensitively. */
  datatype Tx = Tx(txType: string, content: Content, timestamp: real)

  /** A block. `hash` is empty until the block is appended, when it is set to the
      proof of work the block was accepted with. */
  datatype Block = Block(
    index: int,
    transactions: seq<Tx>,
    timestamp: real,
    previousHash: string,
    nonce: int,
    hash: string)

  /** The decisions the peer takes from code it does not own:
      - permits(author, type): the authorization service answered 'accept';
      - registers(content): running a smartcontract's code raised nothing;
      - dispatches(content): the named contract was found and its thread started;
      - validProof(block, proof): the ledger's proof check (link excluded);
      - validChain(blocks): the ledger's whole-chain validity check. */
  datatype Services = Services(
    permits: (string, string) -> bool,
    registers: Content -> bool,
    dispatches: Content -> bool,
    validProof: (Block, string) -> bool,
    validChain: seq<Block> -> bool)

  /** The transaction types the peer distinguishes after lower-casing. */
  datatype Kind = Open | Close | Vote | SmartContract | Execute | Other

  predicate IsUpper(c: char) {
    'A' <= c <= 'Z'
  }

  function LowerChar(c: char): char {
    if IsUpper(c) then (c as int - 'A' as int + 'a' as int) as char else c
  }

  /** Lower-casing of a string, restricted to ASCII letters. */
  function Lower(s: string): (r: string)
    ensures |r| == |s|
    ensures forall i :: 0 <= i < |r| ==> !IsUpper(r[i])
    ensures forall i :: 0 <= i < |s| && !IsUpper(s[i]) ==> r[i] == s[i]
    ensures forall i :: 0 <= i < |s| && IsUpper(s[i]) ==> r[i] == (s[i] as int - 'A' as int + 'a' as int) as char
  {
    if s == [] then [] else [LowerChar(s[0])] + Lower(s[1..])
  }

  /** Lower-casing twice is lower-casing once. */
  lemma {:induction false} LowerIdempotent(s: string)
    ensures Lower(Lower(s)) == Lower(s)
  {
    var l := Lower(s);
    assert forall i :: 0 <= i < |l| ==> Lower(l)[i] == l[i];
  }

  /** A string without upper-case letters is its own lower-casing. */
  lemma LowerKeepsLowerCase(s: string)
    requires forall i :: 0 <= i < |s| ==> !IsUpper(s[i])
    ensures Lower(s) == s
  {
    assert forall i :: 0 <= i < |s| ==> Lower(s)[i] == s[i];
  }

  function KindOf(txType: string): Kind {
    var t := Lower(txType);
    if t == "open" then Open
    else if t == "close" then Close
    else if t == "vote" then Vote
    else if t == "smartcontract" then SmartContract
    else if t == "execute" then Execute
    else Other
  }

  /** The type is read case-insensitively: "OPEN", "Open" and "open" are one type. */
  lemma KindOfIgnoresCase(txType: string)
    ensures KindOf(Lower(txType)) == KindOf(txType)
  {
    LowerIdempotent(txType);
  }
}
