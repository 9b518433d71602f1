/**
 * The transaction state machine over the survey view: how one transaction is
 * checked and applied, once as live validation while mining (`Validate`) and once
 * as replay of a block's transaction (`ReplayTx`). Both first ask the
 * authorization service; then they dispatch on the lower-cased type.
 */
module SurveyRules {
  import opened LedgerTypes

  /** The survey view: question id to survey record. */
  type Surveys = map<string, Survey>

  const Opening := "opening"
  const Closed := "closed"

  /** What validation answers: true, false, or nothing at all (falling off the
      end of the function), which callers treat as a rejection. */
  datatype Verdict = Accepted | Rejected | NoVerdict

  predicate Permitted(env: Services, tx: Tx) {
    env.permits(tx.content.author, tx.txType)
  }

  /** The survey exists, was opened by the requester and is still open. */
  predicate CanClose(m: Surveys, c: Content) {
    c.questionid in m && m[c.questionid].author == c.author && m[c.questionid].status == Opening
  }

  function CloseSurvey(m: Surveys, q: string): Surveys
    requires q in m
  {
    m[q := m[q].(status := Closed)]
  }

  /** The survey a vote names exists and is open. */
  predicate VoteOpen(m: Surveys, c: Content) {
    c.questionid in m && m[c.questionid].status == Opening
  }

  /** A vote that reaches the answer lookup names an answer key of the survey;
      otherwise the lookup raises and nothing is decided. */
  predicate VoteKeyKnown(env: Services, m: Surveys, tx: Tx) {
    (Permitted(env, tx) && KindOf(tx.txType) == Vote && VoteOpen(m, tx.content)) ==>
      tx.content.vote in m[tx.content.questionid].answers
  }

  predicate HasVoted(m: Surveys, c: Content)
    requires VoteOpen(m, c) && c.vote in m[c.questionid].answers
  {
    c.author in m[c.questionid].answers[c.vote]
  }

  function CastVote(m: Surveys, c: Content): Surveys
    requires c.questionid in m && c.vote in m[c.questionid].answers
  {
    var s := m[c.questionid];
    m[c.questionid := s.(answers := s.answers[c.vote := s.answers[c.vote] + [c.author]])]
  }

  /** How one survey record may change: same author, same answer keys, voter
      lists only extended at their end, and status either kept or moved from
      open to closed. */
  ghost predicate SurveyEvolves(s: Survey, s': Survey) {
    && s'.author == s.author
    && (s'.status == s.status || (s.status == Opening && s'.status == Closed))
    && s'.answers.Keys == s.answers.Keys
    && forall a :: a in s.answers ==> s.answers[a] <= s'.answers[a]
  }

  /** How the survey view may change: no survey disappears and every survey
      evolves as above. */
  ghost predicate Evolves(m: Surveys, m': Surveys) {
    && m.Keys <= m'.Keys
    && forall q :: q in m ==> SurveyEvolves(m[q], m'[q])
  }

  lemma EvolvesTransitive(m: Surveys, m': Surveys, m'': Surveys)
    requires Evolves(m, m') && Evolves(m', m'')
    ensures Evolves(m, m'')
  {
    forall q | q in m ensures SurveyEvolves(m[q], m''[q]) {
      var s, s', s'' := m[q], m'[q], m''[q];
      forall a | a in s.answers ensures s.answers[a] <= s''.answers[a] {
        assert s.answers[a] <= s'.answers[a] && s'.answers[a] <= s''.answers[a];
      }
    }
  }

  /** validate_transaction: the live check applied to each pending transaction
      while mining. */
  function Validate(env: Services, m: Surveys, tx: Tx): (r: (Verdict, Surveys))
    requires VoteKeyKnown(env, m, tx)
    ensures !Permitted(env, tx) ==> r.0 == Rejected
    ensures r.0 != Accepted ==> r.1 == m
    ensures r.1.Keys <= m.Keys + {tx.content.questionid}
    ensures Evolves(m, r.1)
    ensures forall q :: q in m && q != tx.content.questionid ==> r.1[q] == m[q]
  {
    var c := tx.content;
    if !Permitted(env, tx) then (Rejected, m)
    else match KindOf(tx.txType)
      case Open => if c.questionid in m then (Rejected, m) else (Accepted, m[c.questionid := c])
      case Close => if CanClose(m, c) then (Accepted, CloseSurvey(m, c.questionid)) else (Rejected, m)
      case Vote =>
        if !VoteOpen(m, c) then (NoVerdict, m)
        else if HasVoted(m, c) then (Rejected, m)
        else (Accepted, CastVote(m, c))
      case SmartContract => (if env.registers(c) then Accepted else Rejected, m)
      case Execute => (if env.dispatches(c) then Accepted else Rejected, m)
      case Other => (NoVerdict, m)
  }

  /** The body of compute_open_surveys for one transaction: the replay rule. */
  function ReplayTx(env: Services, m: Surveys, tx: Tx): (r: (bool, Surveys))
    requires VoteKeyKnown(env, m, tx)
    ensures !Permitted(env, tx) ==> !r.0
    ensures !r.0 ==> r.1 == m
    ensures r.1.Keys <= m.Keys + {tx.content.questionid}
    ensures Evolves(m, r.1)
    ensures forall q :: q in m && q != tx.content.questionid ==> r.1[q] == m[q]
  {
    var c := tx.content;
    if !Permitted(env, tx) then (false, m)
    else match KindOf(tx.txType)
      case Open => if c.questionid !in m then (true, m[c.questionid := c]) else (false, m)
      case Close => if CanClose(m, c) then (true, CloseSurvey(m, c.questionid)) else (false, m)
      case Vote => if VoteOpen(m, c) && !HasVoted(m, c) then (true, CastVote(m, c)) else (false, m)
      case SmartContract => (env.registers(c), m)
      case Execute => (true, m)
      case Other => (true, m)
  }

  /** An `open` is accepted exactly when its question id is new; it then stores
      the content under that id and touches nothing else. */
  lemma OpenRule(env: Services, m: Surveys, tx: Tx)
    requires Permitted(env, tx) && KindOf(tx.txType) == Open
    ensures VoteKeyKnown(env, m, tx)
    ensures var r := Validate(env, m, tx);
      && (r.0 == Accepted <==> tx.content.questionid !in m)
      && (r.0 != Accepted ==> r.0 == Rejected && r.1 == m)
      && (r.0 == Accepted ==> r.1 == m[tx.content.questionid := tx.content])
  {
  }

  /** A `close` is accepted exactly when the survey exists, the requester opened
      it and it is open; it then only flips that survey's status to closed. */
  lemma CloseRule(env: Services, m: Surveys, tx: Tx)
    requires Permitted(env, tx) && KindOf(tx.txType) == Close
    ensures VoteKeyKnown(env, m, tx)
    ensures var r := Validate(env, m, tx); var q := tx.content.questionid;
      && (r.0 == Accepted <==> q in m && m[q].author == tx.content.author && m[q].status == Opening)
      && (r.0 != Accepted ==> r.0 == Rejected && r.1 == m)
      && (r.0 == Accepted ==> r.1 == m[q := m[q].(status := Closed)])
  {
  }

  /** A `vote` on an open survey is accepted exactly when its author is not yet
      in the chosen answer's list, and then appends the author to that list. A
      vote on a missing or closed survey yields no verdict and changes nothing. */
  lemma VoteRule(env: Services, m: Surveys, tx: Tx)
    requires Permitted(env, tx) && KindOf(tx.txType) == Vote
    requires VoteKeyKnown(env, m, tx)
    ensures var r := Validate(env, m, tx); var c := tx.content; var q := c.questionid;
      && (!VoteOpen(m, c) ==> r == (NoVerdict, m))
      && (VoteOpen(m, c) ==>
            && (r.0 == Accepted <==> c.author !in m[q].answers[c.vote])
            && (r.0 != Accepted ==> r == (Rejected, m))
            && (r.0 == Accepted ==>
                  r.1 == m[q := m[q].(answers := m[q].answers[c.vote := m[q].answers[c.vote] + [c.author]])]))
  {
  }

  /** Casting the same vote twice: the second is rejected and changes nothing. */
  lemma {:induction false} RepeatedVoteRejected(env: Services, m: Surveys, tx: Tx)
    requires Permitted(env, tx) && KindOf(tx.txType) == Vote
    requires VoteKeyKnown(env, m, tx)
    requires Validate(env, m, tx).0 == Accepted
    ensures VoteKeyKnown(env, Validate(env, m, tx).1, tx)
    ensures var m' := Validate(env, m, tx).1; Validate(env, m', tx) == (Rejected, m')
  {
    var c := tx.content;
    var m' := Validate(env, m, tx).1;
    assert m' == CastVote(m, c);
    assert m'[c.questionid].answers[c.vote] == m[c.questionid].answers[c.vote] + [c.author];
    assert c.author in m'[c.questionid].answers[c.vote];
  }

  /** A type outside the five known ones is never accepted by live validation. */
  lemma UnknownTypeRule(env: Services, m: Surveys, tx: Tx)
    requires KindOf(tx.txType) == Other
    ensures VoteKeyKnown(env, m, tx)
    ensures Validate(env, m, tx).0 != Accepted && Validate(env, m, tx).1 == m
  {
  }

  /** Replay and live validation agree on every survey transaction and on
      contract registration: replay accepts exactly what validation accepts, with
      the same new view. */
  lemma ReplayAgreesWithValidate(env: Services, m: Surveys, tx: Tx)
    requires VoteKeyKnown(env, m, tx)
    requires KindOf(tx.txType) in {Open, Close, Vote, SmartContract}
    ensures ReplayTx(env, m, tx) == (Validate(env, m, tx).0 == Accepted, Validate(env, m, tx).1)
  {
  }

  /** Whatever live validation accepts, replay accepts with the same effect;
      replay also accepts authorized `execute` and unknown types without effect. */
  lemma ReplayAcceptsValidated(env: Services, m: Surveys, tx: Tx)
    requires VoteKeyKnown(env, m, tx)
    ensures Validate(env, m, tx).0 == Accepted ==> ReplayTx(env, m, tx) == (true, Validate(env, m, tx).1)
    ensures Permitted(env, tx) && KindOf(tx.txType) in {Execute, Other} ==> ReplayTx(env, m, tx) == (true, m)
  {
    var k := KindOf(tx.txType);
    if k == Open || k == Close || k == Vote || k == SmartContract {
      ReplayAgreesWithValidate(env, m, tx);
    }
  }

  predicate NoDuplicates(s: seq<string>) {
    forall i, j :: 0 <= i < j < |s| ==> s[i] != s[j]
  }

  /** Every answer list of every survey names each voter at most once. */
  ghost predicate VotersDistinct(m: Surveys) {
    forall q, a :: q in m && a in m[q].answers ==> NoDuplicates(m[q].answers[a])
  }

  /** The answer lists an `open` brings in are themselves free of repeats. */
  ghost predicate OpensDistinct(tx: Tx) {
    KindOf(tx.txType) == Open ==> forall a :: a in tx.content.answers ==> NoDuplicates(tx.content.answers[a])
  }

  lemma AppendFresh(s: seq<string>, x: string)
    requires NoDuplicates(s) && x !in s
    ensures NoDuplicates(s + [x])
  {
    var t := s + [x];
    forall i, j | 0 <= i < j < |t| ensures t[i] != t[j] {
      if j == |s| { assert t[i] == s[i]; }
    }
  }

  /** An author appears at most once per answer list: validation keeps that
      property, provided the surveys opened bring in lists without repeats. */
  lemma {:induction false} ValidateKeepsVotersDistinct(env: Services, m: Surveys, tx: Tx)
    requires VoteKeyKnown(env, m, tx)
    requires VotersDistinct(m) && OpensDistinct(tx)
    ensures VotersDistinct(Validate(env, m, tx).1)
  {
    var r := Validate(env, m, tx);
    var c := tx.content;
    if r.0 == Accepted && KindOf(tx.txType) == Vote {
      var q := c.questionid;
      AppendFresh(m[q].answers[c.vote], c.author);
      assert r.1 == CastVote(m, c);
      forall q', a | q' in r.1 && a in r.1[q'].answers ensures NoDuplicates(r.1[q'].answers[a]) {
        if q' == q && a == c.vote {
          assert r.1[q'].answers[a] == m[q].answers[c.vote] + [c.author];
        } else {
          assert r.1[q'].answers[a] == m[q'].answers[a];
        }
      }
    }
  }

  /** Alice opens survey q with the answers yes and no; Bob's vote for yes is
      recorded; Bob then tries to close Alice's survey, is rejected, and the
      survey stays open. */
  lemma SurveyScenario(env: Services, alice: string, bob: string, q: string, yes: string, no: string,
                       open: Tx, vote: Tx, close: Tx)
    requires alice != bob && yes != no
    requires KindOf(open.txType) == Open
    requires open.content == Content(alice, q, "", Opening, map[yes := [], no := []], "", "")
    requires KindOf(vote.txType) == Vote
    requires vote.content.author == bob && vote.content.questionid == q && vote.content.vote == yes
    requires KindOf(close.txType) == Close
    requires close.content.author == bob && close.content.questionid == q
    requires Permitted(env, open) && Permitted(env, vote) && Permitted(env, close)
    ensures VoteKeyKnown(env, map[], open)
    ensures Validate(env, map[], open) == (Accepted, map[q := open.content])
    ensures VoteKeyKnown(env, map[q := open.content], vote)
    ensures var m2 := Validate(env, map[q := open.content], vote).1;
      && Validate(env, map[q := open.content], vote).0 == Accepted
      && q in m2 && m2[q].answers == map[yes := [bob], no := []]
      && VoteKeyKnown(env, m2, close)
      && Validate(env, m2, close) == (Rejected, m2)
      && m2[q].status == Opening
  {
    var m1 := map[q := open.content];
    var m2 := CastVote(m1, vote.content);
    assert Validate(env, m1, vote) == (Accepted, m2);
    var before: seq<string> := [];
    assert before + [bob] == [bob];
    assert m2[q].answers == map[yes := [], no := []][yes := [bob]];
    assert !CanClose(m2, close.content);
  }
}
