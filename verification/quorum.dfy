/** Majority and joint quorums: counting votes and what a decided vote means. */
module Quorum {

  datatype VoteResult = VotePending | VoteLost | VoteWon

  /** Two majority configurations; `outgoing` is empty outside a joint state. */
  datatype JointConfig = JointConfig(incoming: set<nat>, outgoing: set<nat>)

  function Yes(c: set<nat>, votes: map<nat, bool>): set<nat> {
    set id | id in c && id in votes && votes[id]
  }

  function Missing(c: set<nat>, votes: map<nat, bool>): set<nat> {
    set id | id in c && id !in votes
  }

  /** More than half of `c`. */
  ghost predicate IsQuorum(q: set<nat>, c: set<nat>) {
    q <= c && 2 * |q| > |c|
  }

  function MajorityVote(c: set<nat>, votes: map<nat, bool>): VoteResult {
    if c == {} then VoteWon
    else if |Yes(c, votes)| >= |c| / 2 + 1 then VoteWon
    else if |Yes(c, votes)| + |Missing(c, votes)| >= |c| / 2 + 1 then VotePending
    else VoteLost
  }

  function JointVote(c: JointConfig, votes: map<nat, bool>): VoteResult {
    var r1 := MajorityVote(c.incoming, votes);
    var r2 := MajorityVote(c.outgoing, votes);
    if r1 == r2 then r1
    else if r1 == VoteLost || r2 == VoteLost then VoteLost
    else VotePending
  }

  lemma CountOneMore(done: set<nat>, id: nat, votes: map<nat, bool>)
    requires id !in done
    ensures |Missing(done + {id}, votes)| == |Missing(done, votes)| + (if id in votes then 0 else 1)
    ensures |Yes(done + {id}, votes)| == |Yes(done, votes)| + (if id in votes && votes[id] then 1 else 0)
  {
    assert Missing(done + {id}, votes) == Missing(done, votes) + (if id in votes then {} else {id});
    assert Yes(done + {id}, votes) == Yes(done, votes) + (if id in votes && votes[id] then {id} else {});
  }

  /** The counting loop of one majority configuration. */
  method CountMajority(c: set<nat>, votes: map<nat, bool>) returns (r: VoteResult)
    ensures r == MajorityVote(c, votes)
  {
    if c == {} {
      return VoteWon;
    }
    var votedCnt, missing := 0, 0;
    var todo := c;
    ghost var done := {};
    while todo != {}
      invariant done + todo == c && done !! todo
      invariant votedCnt == |Yes(done, votes)|
      invariant missing == |Missing(done, votes)|
      decreases todo
    {
      var id :| id in todo;
      CountOneMore(done, id, votes);
      done, todo := done + {id}, todo - {id};
      if id !in votes {
        missing := missing + 1;
      } else if votes[id] {
        votedCnt := votedCnt + 1;
      }
    }
    assert done == c;
    var q := |c| / 2 + 1;
    if votedCnt >= q {
      return VoteWon;
    }
    if votedCnt + missing >= q {
      return VotePending;
    }
    return VoteLost;
  }

  method CountJoint(c: JointConfig, votes: map<nat, bool>) returns (r: VoteResult)
    ensures r == JointVote(c, votes)
  {
    var r1 := CountMajority(c.incoming, votes);
    var r2 := CountMajority(c.outgoing, votes);
    if r1 == r2 {
      return r1;
    }
    if r1 == VoteLost || r2 == VoteLost {
      return VoteLost;
    }
    return VotePending;
  }

  /** The map that the source builds in JointConfig.IDs. */
  method IDs(c: JointConfig) returns (m: set<nat>)
    ensures m == c.incoming + c.outgoing
  {
    m := {};
    var todo := c.incoming;
    while todo != {}
      invariant todo <= c.incoming && m == c.incoming - todo
      decreases todo
    {
      var id :| id in todo;
      m, todo := m + {id}, todo - {id};
    }
    todo := c.outgoing;
    while todo != {}
      invariant todo <= c.outgoing && m == c.incoming + (c.outgoing - todo)
      decreases todo
    {
      var id :| id in todo;
      m, todo := m + {id}, todo - {id};
    }
  }

  // ---------------------------------------------------------------------
  // What a result means: every way the missing votes could still arrive.

  /** `full` is `votes` with every missing vote of the voters `c` filled in. */
  ghost predicate Completes(full: map<nat, bool>, votes: map<nat, bool>, c: set<nat>) {
    && c <= full.Keys
    && forall id :: id in votes ==> id in full && full[id] == votes[id]
  }

  ghost predicate MajorityPasses(c: set<nat>, full: map<nat, bool>) {
    c == {} || IsQuorum(Yes(c, full), c)
  }

  ghost predicate Passes(c: JointConfig, full: map<nat, bool>) {
    MajorityPasses(c.incoming, full) && MajorityPasses(c.outgoing, full)
  }

  ghost function AllVoters(c: JointConfig): set<nat> { c.incoming + c.outgoing }

  ghost function FillWith(votes: map<nat, bool>, c: set<nat>, v: bool): map<nat, bool> {
    map id | id in c + votes.Keys :: if id in votes then votes[id] else v
  }

  lemma SubsetCard(a: set<nat>, b: set<nat>)
    requires a <= b
    ensures |a| <= |b|
  {
    assert b == a + (b - a);
  }

  /** A completion keeps every yes and turns some of the missing votes into yes. */
  lemma CompletionBounds(c: set<nat>, votes: map<nat, bool>, full: map<nat, bool>)
    requires c <= full.Keys && forall id :: id in votes ==> id in full && full[id] == votes[id]
    ensures |Yes(c, votes)| <= |Yes(c, full)| <= |Yes(c, votes)| + |Missing(c, votes)|
  {
    SubsetCard(Yes(c, votes), Yes(c, full));
    SubsetCard(Yes(c, full), Yes(c, votes) + Missing(c, votes));
    assert Yes(c, votes) !! Missing(c, votes);
  }

  lemma FillExtremes(c: set<nat>, all: set<nat>, votes: map<nat, bool>)
    requires c <= all
    ensures Completes(FillWith(votes, all, true), votes, all)
    ensures Completes(FillWith(votes, all, false), votes, all)
    ensures |Yes(c, FillWith(votes, all, true))| == |Yes(c, votes)| + |Missing(c, votes)|
    ensures |Yes(c, FillWith(votes, all, false))| == |Yes(c, votes)|
  {
    assert Yes(c, FillWith(votes, all, true)) == Yes(c, votes) + Missing(c, votes);
    assert Yes(c, votes) !! Missing(c, votes);
    assert Yes(c, FillWith(votes, all, false)) == Yes(c, votes);
  }

  /** A majority vote is won, or lost, exactly as its two extreme completions say. */
  lemma MajorityByExtremes(c: set<nat>, all: set<nat>, votes: map<nat, bool>)
    requires c <= all
    ensures MajorityVote(c, votes) == VoteWon <==> MajorityPasses(c, FillWith(votes, all, false))
    ensures MajorityVote(c, votes) == VoteLost <==> !MajorityPasses(c, FillWith(votes, all, true))
  {
    FillExtremes(c, all, votes);
  }

  lemma ExtremesBound(c: set<nat>, all: set<nat>, votes: map<nat, bool>, full: map<nat, bool>)
    requires c <= all && Completes(full, votes, all)
    ensures MajorityPasses(c, FillWith(votes, all, false)) ==> MajorityPasses(c, full)
    ensures MajorityPasses(c, full) ==> MajorityPasses(c, FillWith(votes, all, true))
  {
    FillExtremes(c, all, votes);
    CompletionBounds(c, votes, full);
  }

  /** Won iff every completion passes; Lost iff none does; Pending iff both kinds exist. */
  lemma VoteResultExact(c: JointConfig, votes: map<nat, bool>)
    ensures JointVote(c, votes) == VoteWon <==>
            forall full :: Completes(full, votes, AllVoters(c)) ==> Passes(c, full)
    ensures JointVote(c, votes) == VoteLost <==>
            forall full :: Completes(full, votes, AllVoters(c)) ==> !Passes(c, full)
  {
    var all := AllVoters(c);
    var yes, no := FillWith(votes, all, true), FillWith(votes, all, false);
    JointByExtremes(c, votes);
    FillExtremes(c.incoming, all, votes);
    forall full | Completes(full, votes, all)
      ensures Passes(c, no) ==> Passes(c, full)
      ensures Passes(c, full) ==> Passes(c, yes)
    {
      ExtremesBound(c.incoming, all, votes, full);
      ExtremesBound(c.outgoing, all, votes, full);
    }
  }

  lemma JointByExtremes(c: JointConfig, votes: map<nat, bool>)
    ensures JointVote(c, votes) == VoteWon <==> Passes(c, FillWith(votes, AllVoters(c), false))
    ensures JointVote(c, votes) == VoteLost <==> !Passes(c, FillWith(votes, AllVoters(c), true))
  {
    MajorityByExtremes(c.incoming, AllVoters(c), votes);
    MajorityByExtremes(c.outgoing, AllVoters(c), votes);
  }

  /** RecordVote keeps the first answer of a voter. */
  function Record(votes: map<nat, bool>, id: nat, v: bool): map<nat, bool> {
    if id in votes then votes else votes[id := v]
  }

  /** Once decided, no further recorded vote changes the result. */
  lemma DecidedIsStable(c: JointConfig, votes: map<nat, bool>, id: nat, v: bool)
    requires JointVote(c, votes) != VotePending
    ensures JointVote(c, Record(votes, id, v)) == JointVote(c, votes)
  {
    hide IsQuorum;
    var more, all := Record(votes, id, v), AllVoters(c);
    JointByExtremes(c, votes);
    JointByExtremes(c, more);
    ExtremesBound(c.incoming, all, votes, FillWith(more, all, false));
    ExtremesBound(c.outgoing, all, votes, FillWith(more, all, false));
    ExtremesBound(c.incoming, all, votes, FillWith(more, all, true));
    ExtremesBound(c.outgoing, all, votes, FillWith(more, all, true));
  }

  /** Two majorities of one configuration share a voter. */
  lemma QuorumsMeet(q1: set<nat>, q2: set<nat>, c: set<nat>) returns (v: nat)
    requires IsQuorum(q1, c) && IsQuorum(q2, c)
    ensures v in q1 && v in q2
  {
    SubsetCard(q1 + q2, c);
    assert |q1 + q2| + |q1 * q2| == |q1| + |q2|;
    v :| v in q1 * q2;
  }

  /** Majorities of voter sets that differ in at most one member share a voter. */
  lemma AdjacentQuorumsMeet(q1: set<nat>, c1: set<nat>, q2: set<nat>, c2: set<nat>) returns (v: nat)
    requires |c1 - c2| + |c2 - c1| <= 1
    requires IsQuorum(q1, c1) && IsQuorum(q2, c2)
    ensures v in q1 && v in q2
  {
    SubsetCard(q1 + q2, c1 + c2);
    assert |q1 + q2| + |q1 * q2| == |q1| + |q2|;
    assert c1 + c2 == c1 + (c2 - c1) && c1 + c2 == c2 + (c1 - c2);
    assert |c1 + c2| == |c1| + |c2 - c1| && |c1 + c2| == |c2| + |c1 - c2|;
    v :| v in q1 * q2;
  }
}
