/** Campaigns, votes and the step to leadership obey the local rule. */
module Elections {
  import opened RaftTypes
  import opened LogSpec
  import opened Quorum
  import opened Tracker
  import opened ConfChange
  import opened RaftSpec
  import opened Cluster
  import opened Invariant
  import opened Preserve
  import opened Completeness
  import opened NodeSteps

  /** A message that a campaign of `n` in `term` sends. */
  ghost predicate CampaignMsg(n: NodeState, t: MessageType, term: nat, m: Message)
    requires t == MsgVote || t == MsgPreVote
  {
    || m == Msg(RespType(t), n.id).(from := n.id, term := term)
    || (m == VoteRequest(n, t, m.to, term).(from := n.id) && m.to != n.id)
  }

  lemma {:induction false} RequestVotesSends(n: NodeState, ids: seq<nat>, t: MessageType, term: nat)
    requires t == MsgVote || t == MsgPreVote
    requires term >= 1 && n.id != NONE
    ensures var r := RequestVotes(n, ids, t, term);
            && r == n.(msgs := r.msgs, msgsAfterAppend := r.msgsAfterAppend)
            && Out(n) <= Out(r)
            && forall m {:trigger CampaignMsg(n, t, term, m)} :: m in Out(r) ==> m in Out(n) || CampaignMsg(n, t, term, m)
    decreases |ids|
  {
    if ids != [] {
      var m := if ids[0] == n.id then Msg(RespType(t), ids[0]).(term := term)
               else VoteRequest(n, t, ids[0], term);
      SendAdds(n, m);
      var n1 := Send(n, m);
      RequestVotesSends(n1, ids[1..], t, term);
      assert CampaignMsg(n, t, term, Stamp(n, m));
      var r := RequestVotes(n, ids, t, term);
      forall x | x in Out(r) ensures x in Out(n) || CampaignMsg(n, t, term, x) {
        assert CampaignMsg(n1, t, term, x) <==> CampaignMsg(n, t, term, x);
      }
    }
  }

  /** `r` is `base`, the start of a campaign by `n`, with only campaign messages added. */
  ghost predicate CampaignSends(n: NodeState, base: NodeState, r: NodeState, t: MessageType)
    requires t == MsgVote || t == MsgPreVote
  {
    && r == base.(msgs := r.msgs, msgsAfterAppend := r.msgsAfterAppend)
    && Out(n) <= Out(r)
    && forall m {:trigger CampaignMsg(n, t, n.term + 1, m)} :: m in Out(r) ==> m in Out(n) || CampaignMsg(n, t, n.term + 1, m)
  }

  lemma RequestsAreCampaign(n: NodeState, base: NodeState, ids: seq<nat>, t: MessageType)
    requires t == MsgVote || t == MsgPreVote
    requires base.id == n.id && base.log == n.log && n.id != NONE
    requires base.msgs == n.msgs && base.msgsAfterAppend == n.msgsAfterAppend
    ensures CampaignSends(n, base, RequestVotes(base, ids, t, n.term + 1), t)
  {
    RequestVotesSends(base, ids, t, n.term + 1);
    var r := RequestVotes(base, ids, t, n.term + 1);
    forall m | m in Out(r) ensures m in Out(n) || CampaignMsg(n, t, n.term + 1, m) {
      assert CampaignMsg(base, t, n.term + 1, m) <==> CampaignMsg(n, t, n.term + 1, m);
    }
  }

  lemma PreCampaignShape(n: NodeState)
    requires n.role != StateLeader && n.id != NONE
    ensures CampaignSends(n, BecomePreCandidate(n), Campaign(n, true), MsgPreVote)
  {
    var ids := SortedIds(n.tracked.cfg.voters.incoming + n.tracked.cfg.voters.outgoing);
    RequestsAreCampaign(n, BecomePreCandidate(n), ids, MsgPreVote);
  }

  lemma CampaignShape(n: NodeState)
    requires n.role != StateLeader && n.id != NONE
    ensures CampaignSends(n, BecomeCandidate(n), Campaign(n, false), MsgVote)
  {
    var ids := SortedIds(n.tracked.cfg.voters.incoming + n.tracked.cfg.voters.outgoing);
    RequestsAreCampaign(n, BecomeCandidate(n), ids, MsgVote);
  }

  lemma PreCampaignAllowed(s: Cluster, i: nat, n: NodeState, r: NodeState)
    requires Shape(s) && At(s, i, n) && n.role != StateLeader
    requires CampaignSends(n, BecomePreCandidate(n), r, MsgPreVote)
    ensures Allowed(s, i, r)
  {
    assert NodeOk(s, i);
    forall m | m in Out(r) ensures m in Out(n) || Harmless(s, i, m) {
      assert m in Out(n) || CampaignMsg(n, MsgPreVote, n.term + 1, m);
    }
    QuietAllowed(s, i, n, r);
  }

  lemma RealCampaignAllowed(s: Cluster, i: nat, n: NodeState, r: NodeState)
    requires Shape(s) && At(s, i, n) && n.role != StateLeader
    requires CampaignSends(n, BecomeCandidate(n), r, MsgVote)
    ensures Allowed(s, i, r)
  {
    assert NodeOk(s, i);
    ResetFixed(s, n, n.term + 1);
    var s2, f := Update(s, i, r), s.nodes[i];
    assert s2.camps[Camp(n.term + 1, i)] == n.log;
    forall m | m in Out(r) && m !in s.net ensures NewMsg(s, s2, f, r, m) {
      assert CampaignMsg(n, MsgVote, n.term + 1, m);
    }
  }

  // ---------------------------------------------------------------------
  // Answering a vote request.

  lemma VoteRequestAllowed(s: Cluster, i: nat, n: NodeState, m: Message)
    requires Shape(s) && At(s, i, n) && m in s.net
    requires m.mtype == MsgVote || m.mtype == MsgPreVote
    requires m.mtype == MsgVote ==> m.term == n.term
    ensures Allowed(s, i, HandleVoteRequest(n, m))
    ensures Out(n) <= Out(HandleVoteRequest(n, m))
  {
    hide AckOk, Allowed, TermsWithin, UpToDate;
    assert NodeOk(s, i) && MsgOk(s, m);
    var t := RespType(m.mtype);
    if CanVote(n, m) && UpToDate(n.log, m.index, m.logTerm) {
      var x := Msg(t, m.from).(term := m.term);
      SendAdds(n, x);
      if m.mtype == MsgVote {
        GrantAllowed(s, i, n, m);
      } else {
        SendAllowed(s, i, n, x);
      }
    } else {
      var x := Msg(t, m.from).(term := n.term, reject := true);
      SendAdds(n, x);
      SendAllowed(s, i, n, x);
    }
  }

  /** Granting a real vote. A leader that grants repeats a vote it cast before. */
  lemma GrantAllowed(s: Cluster, i: nat, n: NodeState, m: Message)
    requires Shape(s) && At(s, i, n) && m in s.net && NodeOk(s, i) && MsgOk(s, m)
    requires m.mtype == MsgVote && m.term == n.term
    requires CanVote(n, m) && UpToDate(n.log, m.index, m.logTerm)
    ensures Allowed(s, i, HandleVoteRequest(n, m))
  {
    hide Acked, ElectionLogs, Send, TrackedFixed, UpToDate;
    var x := Msg(MsgVoteResp, m.from).(term := m.term);
    SendAdds(n, x);
    var r := HandleVoteRequest(n, m);
    var s2, f := Update(s, i, r), s.nodes[i];
    SameHistoryKept(s, i, n, r);
    assert Stamp(n, x) == GrantMsg(i, m.from, n.term);
    forall y | y in Out(r) && y !in s.net ensures NewMsg(s, s2, f, r, y) {
      assert y == Stamp(n, x);
    }
    if r.role == StateLeader {
      forall v | v in r.tracked.trk ensures ProgressOk(s2, r, v) {
        assert ProgressOk(s, f, v);
        MatchStays(s, s2, f, v, f.tracked.trk[v].matched);
      }
    }
  }

  // ---------------------------------------------------------------------
  // Counting votes.

  lemma RecordAllowed(s: Cluster, i: nat, n: NodeState, m: Message)
    requires Shape(s) && At(s, i, n) && m in s.net && m.to == i
    requires n.role == StateCandidate || n.role == StatePreCandidate
    requires n.role == StateCandidate ==> m.mtype == MsgVoteResp && m.term == n.term
    ensures Allowed(s, i, RecordVote(n, m.from, !m.reject))
    ensures n.role == StateCandidate ==> VotesBacked(s, RecordVote(n, m.from, !m.reject))
  {
    assert NodeOk(s, i) && MsgOk(s, m);
    var r := RecordVote(n, m.from, !m.reject);
    if n.role == StateCandidate {
      forall v | v in r.votes && r.votes[v] ensures Granted(s, v, i, r.term) {
        assert v in n.votes && n.votes[v] ==> Granted(s, v, s.nodes[i].id, s.nodes[i].term);
      }
    }
    QuietAllowed(s, i, n, r);
  }

  /** A counted majority is a majority of granted votes. */
  lemma WonIsQuorum(s: Cluster, n: NodeState)
    requires SetupOk(s) && TrackedFixed(s, n.tracked) && VotesBacked(s, n)
    requires JointVote(n.tracked.cfg.voters, n.votes) == VoteWon
    ensures WonBy(s, Yes(s.peers, n.votes), n.id, n.term)
  {
    var q := Yes(s.peers, n.votes);
    forall v | v in q ensures Granted(s, v, n.id, n.term) {
    }
  }

  ghost function NewLeaderLog(n: NodeState): seq<Entry> {
    n.log + StampEntries([EMPTY_ENTRY], n.term, |n.log|)
  }

  ghost predicate FreshProgress(n: NodeState, r: NodeState, v: nat)
    requires v in n.tracked.trk && v in r.tracked.trk
  {
    var p := r.tracked.trk[v];
    && p.isLearner == n.tracked.trk[v].isLearner
    && p.matched == (if v == n.id then |n.log| else 0)
    && p.next == |n.log| + 1 && p.state != StateSnapshot && !p.msgAppFlowPaused
  }

  ghost predicate LeaderFrom(n: NodeState, r: NodeState) {
    && r.id == n.id && r.term == n.term && r.vote == n.vote && r.role == StateLeader && r.lead == n.id
    && r.log == NewLeaderLog(n) && r.committed == n.committed && r.applied == n.applied
    && r.fault == n.fault && r.pendingConfIndex == |n.log|
    && r.tracked.cfg == n.tracked.cfg && r.tracked.trk.Keys == n.tracked.trk.Keys
    && Out(r) == Out(n) + {Msg(MsgAppResp, n.id).(from := n.id, term := n.term, index := |n.log| + 1)}
    && forall v {:trigger FreshProgress(n, r, v)} :: v in n.tracked.trk ==> FreshProgress(n, r, v)
  }

  lemma BecomeLeaderShape(n: NodeState)
    requires n.role != StateFollower && n.id in n.tracked.trk && n.committed <= |n.log| && n.id != NONE
    ensures LeaderFrom(n, BecomeLeader(n))
  {
    var n1 := Reset(n, n.term).(lead := n.id, role := StateLeader);
    var pr := n1.tracked.trk[n.id].BecomeReplicate().(recentActive := true);
    var n2 := SetProgress(n1, n.id, pr).(pendingConfIndex := |n.log|);
    var n3 := n2.(log := NewLeaderLog(n));
    assert Out(n3) == Out(n);
    SendAdds(n3, Msg(MsgAppResp, n.id).(index := |n3.log|));
  }

  lemma NewLeaderRule(s: Cluster, n: NodeState, f: NodeState, r: NodeState, q: set<nat>)
    requires f == Flush(n) && n.role == StateCandidate && WonBy(s, q, n.id, n.term) && LeaderFrom(n, r)
    requires Contiguous(n.log, 1) && PendingOk(r)
    ensures LeaderRule(s, f, r)
  {
    assert r.log[|n.log|] == EMPTY_ENTRY.(term := n.term, index := |n.log| + 1);
    assert forall k :: 0 <= k < |n.log| ==> r.log[k] == n.log[k];
  }

  lemma NewLeaderPending(s: Cluster, n: NodeState, r: NodeState)
    requires LeaderFrom(n, r)
    ensures PendingOk(r)
  {
    assert r.log[|n.log|] == EMPTY_ENTRY.(term := n.term, index := |n.log| + 1);
  }

  lemma NewLeaderTracks(s: Cluster, i: nat, n: NodeState, r: NodeState)
    requires i in s.nodes && n.id == i && LeaderFrom(n, r) && TrackedFixed(s, n.tracked)
    requires Camp(n.term, i) in s.camps && s.camps[Camp(n.term, i)] == n.log
    ensures TrackedFixed(s, r.tracked)
    ensures forall v {:trigger ProgressOk(Update(s, i, r), r, v)} ::
              v in r.tracked.trk ==> ProgressOk(Update(s, i, r), r, v)
  {
    forall v | v in r.tracked.trk ensures ProgressOk(Update(s, i, r), r, v) {
      assert FreshProgress(n, r, v);
    }
    forall v | v in r.tracked.trk ensures !r.tracked.trk[v].isLearner {
      assert FreshProgress(n, r, v);
    }
  }

  lemma BecomeLeaderAllowed(s: Cluster, i: nat, n: NodeState, r: NodeState, q: set<nat>)
    requires Shape(s) && At(s, i, n) && n.role == StateCandidate && WonBy(s, q, i, n.term)
    requires LeaderFrom(n, r)
    ensures Allowed(s, i, r)
  {
    hide IsQuorum, MatchBacked, NewGrant, NewLeaderLog, TrackedFixed;
    assert NodeOk(s, i);
    NewLeaderPending(s, n, r);
    NewLeaderRule(s, n, s.nodes[i], r, q);
    NewLeaderTracks(s, i, n, r);
    var s2, f := Update(s, i, r), s.nodes[i];
    forall m | m in Out(r) && m !in s.net ensures NewMsg(s, s2, f, r, m) {
    }
  }
}
