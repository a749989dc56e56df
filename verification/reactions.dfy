/** What a node does about each message, in its fields and in the messages it queues. */
module Reactions {
  import opened RaftTypes
  import opened LogSpec
  import opened Quorum
  import opened Tracker
  import opened ConfChange
  import opened RaftSpec

  // ---------------------------------------------------------------------
  // Terms.

  ghost function TermAtEnd(log: seq<Entry>): nat { if log == [] then 0 else log[|log| - 1].term }

  /** Every peer starts over behind the end of the log; only the node itself is known to hold it. */
  ghost function Restarted(n: NodeState): map<nat, Progress> {
    map v | v in n.tracked.trk ::
      Progress(if v == n.id then |n.log| else 0, |n.log| + 1, StateProbe, 0, false, false, n.tracked.trk[v].isLearner)
  }

  /** The node as a follower of a term that is new to it. */
  ghost function InNewTerm(n: NodeState, term: nat, lead: nat): NodeState {
    n.(term := term, vote := NONE, role := StateFollower, lead := lead, votes := map[],
       tracked := n.tracked.(trk := Restarted(n)), pendingConfIndex := 0)
  }

  /** A higher term is taken over first, but for pre-vote requests and granted pre-votes. */
  lemma NewerTerm(n: NodeState, m: Message)
    requires m.term > n.term
    ensures m.mtype != MsgPreVote && (m.mtype != MsgPreVoteResp || m.reject) ==>
              var l := if m.mtype == MsgApp || m.mtype == MsgHeartbeat || m.mtype == MsgSnap then m.from else NONE;
              Step(n, m) == Step(InNewTerm(n, m.term, l), m)
  {
    hide Dispatch;
    var l := if m.mtype == MsgApp || m.mtype == MsgHeartbeat || m.mtype == MsgSnap then m.from else NONE;
    StartsOver(n, m.term, l);
  }

  lemma StartsOver(n: NodeState, term: nat, lead: nat)
    requires term != n.term
    ensures BecomeFollower(n, term, lead) == InNewTerm(n, term, lead)
  {
    assert Reset(n, term).tracked.trk == Restarted(n);
  }

  /** A lower term is answered with the own one, or not at all. */
  lemma OlderTerm(n: NodeState, m: Message)
    requires 1 <= m.term < n.term
    ensures var tell := (n.checkQuorum || n.preVote) && (m.mtype == MsgHeartbeat || m.mtype == MsgApp);
            Step(n, m) ==
              if tell then
                n.(msgsAfterAppend := n.msgsAfterAppend +
                     [Message(MsgAppResp, m.from, n.id, n.term, 0, 0, [], 0, false, 0)])
              else if m.mtype == MsgPreVote then
                n.(msgsAfterAppend := n.msgsAfterAppend +
                     [Message(MsgPreVoteResp, m.from, n.id, n.term, 0, 0, [], 0, true, 0)])
              else n
  {
    hide Dispatch;
  }

  // ---------------------------------------------------------------------
  // Vote requests.

  /** The candidate's last entry is of a later term, or of the same and no earlier in the log. */
  ghost predicate NotBehind(m: Message, log: seq<Entry>) {
    m.logTerm > TermAtEnd(log) || (m.logTerm == TermAtEnd(log) && m.index >= |log|)
  }

  /** The request is of a term or a kind in which the node is still free, or repeats its own vote. */
  ghost predicate IsFree(n: NodeState, m: Message) {
    m.term > n.term || n.vote == m.from || (n.vote == NONE && n.lead == NONE)
  }

  /** The exact answer to a vote request, and what is remembered of it. */
  lemma VoteIsAnswered(n: NodeState, m: Message)
    requires m.mtype == MsgVote || m.mtype == MsgPreVote
    requires m.term >= n.term >= 1
    ensures var base := if m.mtype == MsgVote && m.term > n.term then InNewTerm(n, m.term, NONE) else n;
            var granted := IsFree(n, m) && NotBehind(m, n.log);
            var answer := Message(if m.mtype == MsgVote then MsgVoteResp else MsgPreVoteResp, m.from, n.id,
                                  if granted || m.mtype == MsgVote then m.term else n.term, 0, 0, [], 0, !granted, 0);
            Step(n, m) == base.(vote := if m.mtype == MsgVote && granted then m.from else base.vote,
                                msgsAfterAppend := n.msgsAfterAppend + [answer])
  {
    if m.mtype == MsgVote && m.term > n.term {
      NewerTerm(n, m);
      AnswersNow(InNewTerm(n, m.term, NONE), m);
    } else {
      AnswersNow(n, m);
    }
  }

  lemma AnswersNow(n: NodeState, m: Message)
    requires m.mtype == MsgVote || m.mtype == MsgPreVote
    requires m.term >= n.term >= 1 && (m.mtype == MsgVote ==> m.term == n.term)
    ensures var granted := IsFree(n, m) && NotBehind(m, n.log);
            var answer := Message(if m.mtype == MsgVote then MsgVoteResp else MsgPreVoteResp, m.from, n.id,
                                  if granted || m.mtype == MsgVote then m.term else n.term, 0, 0, [], 0, !granted, 0);
            Step(n, m) == n.(vote := if m.mtype == MsgVote && granted then m.from else n.vote,
                             msgsAfterAppend := n.msgsAfterAppend + [answer])
  {
  }

  // ---------------------------------------------------------------------
  // One message to each peer.

  ghost predicate Addressed(ms: seq<Message>, v: nat) { exists k :: 0 <= k < |ms| && ms[k].to == v }

  /** One message for each of `ids`, in increasing order, each of the kind `is`. */
  ghost predicate OnePer(ms: seq<Message>, ids: set<nat>, fits: Message -> bool) {
    && (forall j, k :: 0 <= j < k < |ms| ==> ms[j].to < ms[k].to)
    && (forall k :: 0 <= k < |ms| ==> ms[k].to in ids && fits(ms[k]))
    && forall v :: v in ids ==> Addressed(ms, v)
  }

  lemma OnePerNobody(fits: Message -> bool)
    ensures OnePer([], {}, fits)
  {
  }

  lemma OnePerFirst(m: Message, ms: seq<Message>, ids: set<nat>, fits: Message -> bool)
    requires OnePer(ms, ids, fits) && fits(m) && forall v :: v in ids ==> m.to < v
    ensures OnePer([m] + ms, {m.to} + ids, fits)
  {
    var r := [m] + ms;
    forall v | v in {m.to} + ids ensures Addressed(r, v) {
      if v == m.to {
        assert r[0].to == v;
      } else {
        assert Addressed(ms, v);
        var k :| 0 <= k < |ms| && ms[k].to == v;
        assert r[k + 1].to == v;
      }
    }
  }

  lemma OnePerSame(ms: seq<Message>, ids: set<nat>, fits: Message -> bool, also: Message -> bool)
    requires OnePer(ms, ids, fits) && forall m: Message :: m.to in ids && fits(m) ==> also(m)
    ensures OnePer(ms, ids, also)
  {
  }

  // ---------------------------------------------------------------------
  // Campaigns.

  /** A request for a vote in `term`, with the position of the sender's last entry. */
  ghost predicate AsksFor(n: NodeState, t: MessageType, term: nat, m: Message) {
    m == Message(t, m.to, n.id, term, TermAtEnd(n.log), |n.log|, [], 0, false, 0)
  }

  /** The vote of a candidate for itself, if it is a voter. */
  ghost function OwnVote(n: NodeState, ids: set<nat>, t: MessageType, term: nat): seq<Message> {
    if n.id in ids then [Message(t, n.id, n.id, term, 0, 0, [], 0, false, 0)] else []
  }

  lemma {:induction false} RequestsGoOut(n: NodeState, ids: seq<nat>, t: MessageType, term: nat) returns (out: seq<Message>)
    requires (t == MsgVote || t == MsgPreVote) && term >= 1 && Increasing(ids)
    ensures RequestVotes(n, ids, t, term)
            == n.(msgs := n.msgs + out,
                  msgsAfterAppend := n.msgsAfterAppend
                                     + OwnVote(n, Elems(ids), if t == MsgVote then MsgVoteResp else MsgPreVoteResp, term))
    ensures OnePer(out, Elems(ids) - {n.id}, m => AsksFor(n, t, term, m))
    decreases |ids|
  {
    hide RequestVotes, OnePer, Increasing;
    var fits := m => AsksFor(n, t, term, m);
    if ids == [] {
      out := [];
      NobodyAsked(n, t, term);
      OnePerNobody(fits);
      assert Elems(ids) - {n.id} == {};
      return;
    }
    FirstIsLeast(ids);
    var v := ids[0];
    if v == n.id {
      var own := Message(if t == MsgVote then MsgVoteResp else MsgPreVoteResp, v, n.id, term, 0, 0, [], 0, false, 0);
      var n1 := n.(msgsAfterAppend := n.msgsAfterAppend + [own]);
      OwnRequest(n, ids, t, term);
      out := RequestsGoOut(n1, ids[1..], t, term);
      OnePerSame(out, Elems(ids[1..]) - {n.id}, m => AsksFor(n1, t, term, m), fits);
      assert Elems(ids) - {n.id} == Elems(ids[1..]) - {n.id};
      assert (n.msgsAfterAppend + [own]) + [] == n.msgsAfterAppend + [own];
    } else {
      var ask := Message(t, v, n.id, term, TermAtEnd(n.log), |n.log|, [], 0, false, 0);
      var n1 := n.(msgs := n.msgs + [ask]);
      OtherRequest(n, ids, t, term);
      var rest := RequestsGoOut(n1, ids[1..], t, term);
      out := [ask] + rest;
      OnePerSame(rest, Elems(ids[1..]) - {n.id}, m => AsksFor(n1, t, term, m), fits);
      OnePerFirst(ask, rest, Elems(ids[1..]) - {n.id}, fits);
      assert Elems(ids) - {n.id} == {v} + (Elems(ids[1..]) - {n.id});
      assert (n.msgs + [ask]) + rest == n.msgs + out;
    }
  }

  lemma NobodyAsked(n: NodeState, t: MessageType, term: nat)
    requires t == MsgVote || t == MsgPreVote
    ensures Elems([]) == {}
    ensures RequestVotes(n, [], t, term) == n.(msgs := n.msgs + [], msgsAfterAppend := n.msgsAfterAppend + [])
  {
    assert n.msgs + [] == n.msgs && n.msgsAfterAppend + [] == n.msgsAfterAppend;
  }

  lemma OwnRequest(n: NodeState, ids: seq<nat>, t: MessageType, term: nat)
    requires (t == MsgVote || t == MsgPreVote) && term >= 1 && ids != [] && ids[0] == n.id
    ensures var own := Message(if t == MsgVote then MsgVoteResp else MsgPreVoteResp, n.id, n.id, term, 0, 0, [], 0, false, 0);
            RequestVotes(n, ids, t, term)
            == RequestVotes(n.(msgsAfterAppend := n.msgsAfterAppend + [own]), ids[1..], t, term)
  {
  }

  lemma OtherRequest(n: NodeState, ids: seq<nat>, t: MessageType, term: nat)
    requires (t == MsgVote || t == MsgPreVote) && term >= 1 && ids != [] && ids[0] != n.id
    ensures var ask := Message(t, ids[0], n.id, term, TermAtEnd(n.log), |n.log|, [], 0, false, 0);
            RequestVotes(n, ids, t, term) == RequestVotes(n.(msgs := n.msgs + [ask]), ids[1..], t, term)
  {
  }

  lemma FirstIsLeast(ids: seq<nat>)
    requires Increasing(ids) && ids != []
    ensures Increasing(ids[1..]) && Elems(ids) == {ids[0]} + Elems(ids[1..]) && ids[0] !in Elems(ids[1..])
    ensures ids[0] in Elems(ids) && forall v :: v in Elems(ids[1..]) ==> ids[0] < v
  {
    TailElems(ids);
  }

  ghost function Voters(n: NodeState): set<nat> { n.tracked.cfg.voters.incoming + n.tracked.cfg.voters.outgoing }

  /** What an election timeout does. */
  lemma HupCampaigns(n: NodeState, m: Message) returns (out: seq<Message>)
    requires m.mtype == MsgHup && m.term == 0
    ensures var able := n.id in n.tracked.trk && !n.tracked.trk[n.id].isLearner;
            var more := n.term + 1;
            Step(n, m) ==
              if n.role == StateLeader || !able then n
              else if n.preVote then
                n.(role := StatePreCandidate, lead := NONE, votes := map[], msgs := n.msgs + out,
                   msgsAfterAppend := n.msgsAfterAppend + OwnVote(n, Voters(n), MsgPreVoteResp, more))
              else
                n.(role := StateCandidate, lead := NONE, votes := map[], msgs := n.msgs + out,
                   term := more, vote := n.id, tracked := n.tracked.(trk := Restarted(n)), pendingConfIndex := 0,
                   msgsAfterAppend := n.msgsAfterAppend + OwnVote(n, Voters(n), MsgVoteResp, more))
    ensures OnePer(out, Voters(n) - {n.id}, x => AsksFor(n, if n.preVote then MsgPreVote else MsgVote, n.term + 1, x))
  {
    out := CampaignGoesOut(n, n.preVote);
  }

  lemma CampaignGoesOut(n: NodeState, pre: bool) returns (out: seq<Message>)
    ensures n.role != StateLeader ==>
              Campaign(n, pre) ==
                if pre then
                  n.(role := StatePreCandidate, lead := NONE, votes := map[], msgs := n.msgs + out,
                     msgsAfterAppend := n.msgsAfterAppend + OwnVote(n, Voters(n), MsgPreVoteResp, n.term + 1))
                else
                  n.(role := StateCandidate, lead := NONE, votes := map[], msgs := n.msgs + out,
                     term := n.term + 1, vote := n.id, tracked := n.tracked.(trk := Restarted(n)), pendingConfIndex := 0,
                     msgsAfterAppend := n.msgsAfterAppend + OwnVote(n, Voters(n), MsgVoteResp, n.term + 1))
    ensures OnePer(out, Voters(n) - {n.id}, x => AsksFor(n, if pre then MsgPreVote else MsgVote, n.term + 1, x))
  {
    hide RequestVotes, OnePer;
    var t := if pre then MsgPreVote else MsgVote;
    var c := Campaigner(n, pre);
    out := RequestsGoOut(c, SortedIds(Voters(n)), t, n.term + 1);
    OnePerSame(out, Voters(n) - {n.id}, m => AsksFor(c, t, n.term + 1, m), x => AsksFor(n, t, n.term + 1, x));
    if n.role != StateLeader {
      CampaignAsks(n, pre);
    }
  }

  ghost function Campaigner(n: NodeState, pre: bool): NodeState {
    if pre then n.(votes := map[], lead := NONE, role := StatePreCandidate)
    else InNewTerm(n, n.term + 1, NONE).(vote := n.id, role := StateCandidate)
  }

  lemma CampaignAsks(n: NodeState, pre: bool)
    requires n.role != StateLeader
    ensures Campaign(n, pre)
            == RequestVotes(Campaigner(n, pre), SortedIds(Voters(n)), if pre then MsgPreVote else MsgVote, n.term + 1)
  {
    hide RequestVotes;
    StartsOver(n, n.term + 1, NONE);
  }
}
