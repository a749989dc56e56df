/** Every event of the cluster keeps the invariant. */
module Events {
  import opened RaftTypes
  import opened LogSpec
  import opened Quorum
  import opened Tracker
  import opened ConfChange
  import opened ConfEntry
  import opened RaftSpec
  import opened Cluster
  import opened Invariant
  import opened Preserve
  import opened Completeness
  import opened NodeSteps
  import opened Elections
  import opened Replication

  /** A positive acknowledgement that is new was given in the sender's term of the time, or later. */
  ghost predicate FreshAck(s: Cluster, m: Message) {
    IsAck(m) && m.index > 0 && m !in s.net ==> m.from in s.nodes && s.nodes[m.from].term <= m.term
  }

  ghost predicate Evolves(s: Cluster, s': Cluster) {
    && Grows(s, s')
    && forall m {:trigger FreshAck(s, m)} :: m in s'.net ==> FreshAck(s, m)
  }

  lemma EvolvesTrans(a: Cluster, b: Cluster, c: Cluster)
    requires Evolves(a, b) && Evolves(b, c)
    ensures Evolves(a, c)
  {
    forall m | m in c.net ensures FreshAck(a, m) {
      assert FreshAck(b, m);
      assert m in b.net ==> FreshAck(a, m);
    }
  }

  lemma EvolvesNot(s: Cluster)
    ensures Evolves(s, s)
  {
  }

  /** Node `i` may go from `n` to `r`: the invariant holds after it, and no queued message is lost. */
  ghost predicate Keeps(s: Cluster, i: nat, n: NodeState, r: NodeState) {
    && Inv(Update(s, i, r)) && Evolves(s, Update(s, i, r))
    && At(Update(s, i, r), i, r) && Out(n) <= Out(r)
  }

  lemma AllowedEvolves(s: Cluster, i: nat, r: NodeState)
    requires Inv(s) && i in s.nodes && Allowed(s, i, r)
    ensures Inv(Update(s, i, r)) && Evolves(s, Update(s, i, r))
  {
    InvKept(s, i, r);
    assert NodeOk(s, i);
    StepGrows(s, i, r);
    var s2 := Update(s, i, r);
    forall m | m in s2.net ensures FreshAck(s, m) {
      if m !in s.net {
        assert NewMsg(s, s2, s.nodes[i], r, m);
      }
    }
  }

  lemma AllowedKeeps(s: Cluster, i: nat, n: NodeState, r: NodeState)
    requires Inv(s) && At(s, i, n) && Allowed(s, i, r) && Out(n) <= Out(r)
    ensures Keeps(s, i, n, r)
  {
    AllowedEvolves(s, i, r);
    AfterUpdate(s, i, r);
  }

  /** Two steps in a row; the first leaves no history of its own behind. */
  lemma ThenKeeps(s: Cluster, i: nat, n: NodeState, a: NodeState, b: NodeState)
    requires Keeps(s, i, n, a) && Keeps(Update(s, i, a), i, a, b)
    requires a.role == StateLeader ==> b.role == StateLeader && b.term == a.term
    requires a.role == StateCandidate ==> Camp(a.term, i) in s.camps && s.camps[Camp(a.term, i)] == a.log
                                          && b.role != StateCandidate
    ensures Keeps(s, i, n, b)
  {
    UpdateTwice(s, i, a, b);
    EvolvesTrans(s, Update(s, i, a), Update(s, i, b));
  }

  lemma FollowerKeeps(s: Cluster, i: nat, n: NodeState, term: nat, lead: nat)
    requires Inv(s) && At(s, i, n)
    requires n.term < term || (n.term == term && n.role != StateLeader)
    requires lead != NONE ==> term in s.elected && s.elected[term].leader == lead
    ensures Keeps(s, i, n, BecomeFollower(n, term, lead))
  {
    FollowerAllowed(s, i, n, term, lead);
    AllowedKeeps(s, i, n, BecomeFollower(n, term, lead));
  }

  lemma StayKeeps(s: Cluster, i: nat, n: NodeState)
    requires Inv(s) && At(s, i, n)
    ensures Keeps(s, i, n, n)
  {
    StayAllowed(s, i, n);
    AllowedKeeps(s, i, n, n);
  }

  lemma SendKeeps(s: Cluster, i: nat, n: NodeState, m: Message)
    requires Inv(s) && At(s, i, n) && CanSend(n, m) && Harmless(s, i, Stamp(n, m))
    ensures Keeps(s, i, n, Send(n, m))
  {
    SendAllowed(s, i, n, m);
    SendAdds(n, m);
    AllowedKeeps(s, i, n, Send(n, m));
  }

  // ---------------------------------------------------------------------
  // Campaigns and votes.

  lemma CampaignKeeps(s: Cluster, i: nat, n: NodeState, pre: bool)
    requires Inv(s) && At(s, i, n) && n.role != StateLeader
    ensures Keeps(s, i, n, Campaign(n, pre))
  {
    assert NodeOk(s, i);
    PreCampaignShape(n);
    CampaignShape(n);
    if pre {
      PreCampaignAllowed(s, i, n, Campaign(n, true));
    } else {
      RealCampaignAllowed(s, i, n, Campaign(n, false));
    }
    AllowedKeeps(s, i, n, Campaign(n, pre));
  }

  lemma BcastAppendKeeps(s: Cluster, i: nat, n: NodeState)
    requires Inv(s) && At(s, i, n) && n.role == StateLeader
    ensures Keeps(s, i, n, BcastAppend(n)) && BcastAppend(n).role == StateLeader && BcastAppend(n).term == n.term
  {
    assert NodeOk(s, i);
    LeaderReachable(s, i, n);
    AppendToAllSends(n, SortedIds(n.tracked.trk.Keys), true);
    LeaderSendsAllowed(s, i, n, BcastAppend(n));
    AllowedKeeps(s, i, n, BcastAppend(n));
  }

  lemma WinKeeps(s: Cluster, i: nat, n: NodeState)
    requires Inv(s) && At(s, i, n) && n.role == StateCandidate
    requires JointVote(n.tracked.cfg.voters, n.votes) == VoteWon
    ensures Keeps(s, i, n, BcastAppend(BecomeLeader(n))) && BcastAppend(BecomeLeader(n)).role == StateLeader
  {
    hide Allowed, BcastAppend, BecomeLeader, Evolves, IsQuorum;
    assert NodeOk(s, i);
    var f := s.nodes[i];
    WonIsQuorum(s, f);
    BecomeLeaderShape(n);
    var a := BecomeLeader(n);
    BecomeLeaderAllowed(s, i, n, a, Yes(s.peers, f.votes));
    AllowedKeeps(s, i, n, a);
    BcastAppendKeeps(Update(s, i, a), i, a);
    ThenKeeps(s, i, n, a, BcastAppend(a));
  }

  lemma VoteResponseKeeps(s: Cluster, i: nat, n: NodeState, m: Message)
    requires Inv(s) && At(s, i, n) && m in s.net && m.to == i
    requires n.role == StateCandidate || n.role == StatePreCandidate
    requires n.role == StateCandidate ==> m.mtype == MsgVoteResp && m.term == n.term
    ensures Keeps(s, i, n, HandleVoteResponse(n, m))
  {
    hide Allowed, BcastAppend, Evolves, Keeps, SetupOk;
    assert NodeOk(s, i);
    RecordAllowed(s, i, n, m);
    var a := RecordVote(n, m.from, !m.reject);
    AllowedKeeps(s, i, n, a);
    var s1 := Update(s, i, a);
    match JointVote(a.tracked.cfg.voters, a.votes) {
      case VoteWon =>
        if a.role == StatePreCandidate {
          CampaignKeeps(s1, i, a, false);
          ThenKeeps(s, i, n, a, Campaign(a, false));
        } else {
          WinKeeps(s1, i, a);
          ThenKeeps(s, i, n, a, BcastAppend(BecomeLeader(a)));
        }
      case VoteLost =>
        FollowerKeeps(s1, i, a, a.term, NONE);
        ThenKeeps(s, i, n, a, BecomeFollower(a, a.term, NONE));
      case VotePending =>
    }
  }

  // ---------------------------------------------------------------------
  // Dispatch on the role.

  lemma LeaderOf(s: Cluster, m: Message)
    requires Inv(s) && m in s.net && (m.mtype == MsgApp || m.mtype == MsgHeartbeat)
    ensures m.term in s.elected && s.elected[m.term].leader == m.from && m.from != m.to && m.from in s.peers
    ensures m.mtype == MsgApp ==> AppOk(s, m)
    ensures m.from != NONE
  {
    assert MsgOk(s, m);
  }

  lemma HeartbeatKeeps(s: Cluster, i: nat, n: NodeState, m: Message)
    requires Inv(s) && At(s, i, n) && m.from != i
    ensures Keeps(s, i, n, HandleHeartbeat(n, m))
  {
    assert NodeOk(s, i);
    SendKeeps(s, i, n, Msg(MsgHeartbeatResp, m.from));
  }

  /** A follower hears from the leader of its term. */
  lemma SetLeadKeeps(s: Cluster, i: nat, n: NodeState, lead: nat)
    requires Inv(s) && At(s, i, n) && n.role == StateFollower
    requires n.term in s.elected && s.elected[n.term].leader == lead
    ensures Keeps(s, i, n, n.(lead := lead))
  {
    assert NodeOk(s, i);
    var a := n.(lead := lead);
    assert Out(a) == Out(n);
    QuietAllowed(s, i, n, a);
    AllowedKeeps(s, i, n, a);
  }

  lemma ForwardKeeps(s: Cluster, i: nat, n: NodeState, m: Message)
    requires Inv(s) && At(s, i, n) && n.role == StateFollower && n.lead != NONE
    requires m.mtype == MsgProp && m.term == 0 && m.from in s.peers && Proposable(m.entries)
    ensures Keeps(s, i, n, Send(n, m.(to := n.lead)))
  {
    assert NodeOk(s, i);
    assert ElectionWon(s, n.term);
    SendKeeps(s, i, n, m.(to := n.lead));
  }

  lemma FollowerAppendKeeps(s: Cluster, i: nat, n: NodeState, m: Message)
    requires Inv(s) && At(s, i, n) && n.role == StateFollower
    requires m.mtype == MsgApp && m in s.net && m.to == i && m.term == n.term
    ensures Keeps(s, i, n, HandleAppendEntries(n.(lead := m.from), m))
  {
    LeaderOf(s, m);
    HandleAppendAllowed(s, i, n, m);
    HandleAppendShape(s, i, n, m);
    AllowedKeeps(s, i, n, HandleAppendEntries(n.(lead := m.from), m));
  }

  lemma FollowerBeatKeeps(s: Cluster, i: nat, n: NodeState, m: Message)
    requires Inv(s) && At(s, i, n) && n.role == StateFollower
    requires m.mtype == MsgHeartbeat && m in s.net && m.to == i && m.term == n.term
    ensures Keeps(s, i, n, HandleHeartbeat(n.(lead := m.from), m))
  {
    LeaderOf(s, m);
    var a := n.(lead := m.from);
    SetLeadKeeps(s, i, n, m.from);
    HeartbeatKeeps(Update(s, i, a), i, a, m);
    ThenKeeps(s, i, n, a, HandleHeartbeat(a, m));
  }

  lemma FollowerStepKeeps(s: Cluster, i: nat, n: NodeState, m: Message)
    requires Inv(s) && At(s, i, n) && n.role == StateFollower
    requires m.mtype == MsgProp ==> m.term == 0 && m.from in s.peers && Proposable(m.entries)
    requires m.mtype == MsgApp || m.mtype == MsgHeartbeat ==> m in s.net && m.to == i && m.term == n.term
    ensures Keeps(s, i, n, StepFollower(n, m))
  {
    hide At, HandleAppendEntries, Keeps, Send, Shape;
    if m.mtype == MsgProp && n.lead != NONE {
      ForwardKeeps(s, i, n, m);
    } else if m.mtype == MsgApp {
      FollowerAppendKeeps(s, i, n, m);
    } else if m.mtype == MsgHeartbeat {
      FollowerBeatKeeps(s, i, n, m);
    } else {
      StayKeeps(s, i, n);
    }
  }

  lemma CandidateStepKeeps(s: Cluster, i: nat, n: NodeState, m: Message)
    requires Inv(s) && At(s, i, n) && (n.role == StateCandidate || n.role == StatePreCandidate)
    requires m.mtype != MsgSnap
    requires m.mtype == MsgApp || m.mtype == MsgHeartbeat || m.mtype == MsgVoteResp || m.mtype == MsgPreVoteResp ==>
               m in s.net && m.to == i
    requires m.mtype == MsgApp || m.mtype == MsgHeartbeat || m.mtype == MsgVoteResp ==> m.term == n.term
    ensures Keeps(s, i, n, StepCandidate(n, m))
  {
    assert NodeOk(s, i);
    if m.mtype == MsgApp || m.mtype == MsgHeartbeat {
      LeaderOf(s, m);
      var a := BecomeFollower(n, m.term, m.from);
      FollowerKeeps(s, i, n, m.term, m.from);
      if m.mtype == MsgHeartbeat {
        HeartbeatKeeps(Update(s, i, a), i, a, m);
        ThenKeeps(s, i, n, a, HandleHeartbeat(a, m));
      }
    } else if m.mtype == (if n.role == StatePreCandidate then MsgPreVoteResp else MsgVoteResp) {
      VoteResponseKeeps(s, i, n, m);
    } else {
      StayKeeps(s, i, n);
    }
  }

  lemma ProposalKeeps(s: Cluster, i: nat, n: NodeState, m: Message)
    requires Inv(s) && At(s, i, n) && n.role == StateLeader && Proposable(m.entries)
    ensures Keeps(s, i, n, HandleProposal(n, m))
  {
    assert NodeOk(s, i);
    ProposalShape(n, m);
    var (es, pending) := Screen(m.entries, n.pendingConfIndex, n.applied, |n.log|, Joint(n.tracked.cfg));
    var a := AppendEntry(n.(pendingConfIndex := pending), es);
    ProposalAllowed(s, i, n, a, es);
    AllowedKeeps(s, i, n, a);
    BcastAppendKeeps(Update(s, i, a), i, a);
    ThenKeeps(s, i, n, a, BcastAppend(a));
  }

  lemma AppendResponseKeeps(s: Cluster, i: nat, n: NodeState, m: Message)
    requires Inv(s) && At(s, i, n) && n.role == StateLeader && m in s.net
    requires m.mtype == MsgAppResp && m.term == n.term && m.from in n.tracked.trk
    ensures Keeps(s, i, n, HandleAppendResponse(n, m))
  {
    AppendResponseAllowed(s, i, n, m);
    AllowedKeeps(s, i, n, HandleAppendResponse(n, m));
  }

  lemma LeaderStepKeeps(s: Cluster, i: nat, n: NodeState, m: Message)
    requires Inv(s) && At(s, i, n) && n.role == StateLeader
    requires m.mtype == MsgProp ==> Proposable(m.entries)
    requires m.mtype == MsgAppResp ==> m in s.net && m.term == n.term
    ensures Keeps(s, i, n, StepLeader(n, m))
  {
    hide Allowed, ElectionsWon, Evolves, HandleProposal, TrackedFixed;
    assert NodeOk(s, i);
    match m.mtype {
      case MsgBeat =>
        HeartbeatToAllSends(n, SortedIds(n.tracked.trk.Keys));
        LeaderSendsAllowed(s, i, n, BcastHeartbeat(n));
        AllowedKeeps(s, i, n, BcastHeartbeat(n));
      case MsgProp => ProposalKeeps(s, i, n, m);
      case MsgAppResp =>
        if m.from in n.tracked.trk {
          AppendResponseKeeps(s, i, n, m);
        } else {
          StayKeeps(s, i, n);
        }
      case _ => StayKeeps(s, i, n);
    }
  }

  /** A message of the node's own term, a pre-vote message, or a local one. */
  ghost predicate Arrives(s: Cluster, i: nat, n: NodeState, m: Message) {
    || (m in s.net && m.to == i && (m.term == n.term || m.term == 0 || (m.term > n.term && KeepsTerm(m))))
    || (m.mtype == MsgProp && m.term == 0 && m.from in s.peers && Proposable(m.entries))
    || m.mtype == MsgHup
    || m.mtype == MsgBeat
  }

  /** What the handlers of the three roles ask of an arriving message. */
  lemma ArrivesFits(s: Cluster, i: nat, n: NodeState, m: Message)
    requires NetOk(s) && Arrives(s, i, n, m) && m.mtype != MsgHup && n.term >= 1
    ensures m.mtype != MsgSnap
    ensures m.mtype == MsgProp ==> m.term == 0 && m.from in s.peers && Proposable(m.entries)
    ensures m.mtype != MsgProp && m.mtype != MsgBeat ==> m in s.net && m.to == i && m.term != 0
    ensures m.mtype != MsgProp && m.mtype != MsgBeat && m.mtype != MsgPreVote && m.mtype != MsgPreVoteResp ==>
              m.term == n.term
  {
    assert m in s.net ==> MsgOk(s, m);
  }

  lemma StepRoleKeeps(s: Cluster, i: nat, n: NodeState, m: Message)
    requires Inv(s) && At(s, i, n) && Arrives(s, i, n, m) && m.mtype != MsgHup && n.term >= 1
    ensures Keeps(s, i, n, StepRole(n, m))
  {
    ArrivesFits(s, i, n, m);
    match n.role {
      case StateLeader => LeaderStepKeeps(s, i, n, m);
      case StateFollower => FollowerStepKeeps(s, i, n, m);
      case _ => CandidateStepKeeps(s, i, n, m);
    }
  }

  lemma HupKeeps(s: Cluster, i: nat, n: NodeState)
    requires Inv(s) && At(s, i, n)
    ensures Keeps(s, i, n, Hup(n))
  {
    if n.role == StateLeader || !Promotable(n) {
      StayKeeps(s, i, n);
    } else {
      CampaignKeeps(s, i, n, n.preVote);
    }
  }

  lemma VoteRequestKeeps(s: Cluster, i: nat, n: NodeState, m: Message)
    requires Inv(s) && At(s, i, n) && Arrives(s, i, n, m) && n.term >= 1
    requires m.mtype == MsgVote || m.mtype == MsgPreVote
    ensures Keeps(s, i, n, HandleVoteRequest(n, m))
  {
    ArrivesFits(s, i, n, m);
    VoteRequestAllowed(s, i, n, m);
    AllowedKeeps(s, i, n, HandleVoteRequest(n, m));
  }

  lemma PositiveTerm(s: Cluster, i: nat, n: NodeState)
    requires Inv(s) && At(s, i, n)
    ensures n.term >= 1
  {
    assert NodeOk(s, i);
  }

  lemma DispatchKeeps(s: Cluster, i: nat, n: NodeState, m: Message)
    requires Inv(s) && At(s, i, n) && Arrives(s, i, n, m)
    ensures Keeps(s, i, n, Dispatch(n, m))
  {
    hide Arrives, At, Evolves, Flush, HandleVoteRequest, Inv, Keeps, StepCandidate, StepLeader, StepRole;
    PositiveTerm(s, i, n);
    if m.mtype == MsgHup {
      HupKeeps(s, i, n);
    } else if m.mtype == MsgVote || m.mtype == MsgPreVote {
      VoteRequestKeeps(s, i, n, m);
    } else {
      StepRoleKeeps(s, i, n, m);
    }
  }

  // ---------------------------------------------------------------------
  // The term of a message, and the other events.

  lemma NewTermKeeps(s: Cluster, i: nat, n: NodeState, m: Message)
    requires Inv(s) && At(s, i, n) && m in s.net && m.to == i && m.term > n.term && !KeepsTerm(m)
    ensures Keeps(s, i, n, Step(n, m))
  {
    hide Evolves, Keeps, StepRole;
    assert MsgOk(s, m);
    var lead := if FromLeader(m) then m.from else NONE;
    if FromLeader(m) {
      LeaderOf(s, m);
    }
    var a := BecomeFollower(n, m.term, lead);
    FollowerKeeps(s, i, n, m.term, lead);
    DispatchKeeps(Update(s, i, a), i, a, m);
    ThenKeeps(s, i, n, a, Dispatch(a, m));
  }

  lemma OldTermKeeps(s: Cluster, i: nat, n: NodeState, m: Message)
    requires Inv(s) && At(s, i, n) && m in s.net && 0 < m.term < n.term
    ensures Keeps(s, i, n, Step(n, m))
  {
    assert NodeOk(s, i) && MsgOk(s, m);
    if (n.checkQuorum || n.preVote) && (m.mtype == MsgHeartbeat || m.mtype == MsgApp) {
      SendKeeps(s, i, n, Msg(MsgAppResp, m.from));
    } else if m.mtype == MsgPreVote {
      SendKeeps(s, i, n, Msg(MsgPreVoteResp, m.from).(term := n.term, reject := true));
    } else {
      StayKeeps(s, i, n);
    }
  }

  lemma DeliverKeeps(s: Cluster, m: Message)
    requires Inv(s) && m in s.net && m.to in s.nodes
    ensures Inv(Update(s, m.to, Step(s.nodes[m.to], m))) && Evolves(s, Update(s, m.to, Step(s.nodes[m.to], m)))
  {
    var i, n := m.to, s.nodes[m.to];
    assert NodeOk(s, i);
    if m.term > n.term && !KeepsTerm(m) {
      NewTermKeeps(s, i, n, m);
    } else if 0 < m.term < n.term {
      OldTermKeeps(s, i, n, m);
    } else {
      DispatchKeeps(s, i, n, m);
    }
  }

  lemma LocalKeeps(s: Cluster, i: nat, m: Message)
    requires Inv(s) && i in s.nodes && m.term == 0
    requires m.mtype == MsgHup || m.mtype == MsgBeat || (m.mtype == MsgProp && m.from in s.peers && Proposable(m.entries))
    ensures Inv(Update(s, i, Step(s.nodes[i], m))) && Evolves(s, Update(s, i, Step(s.nodes[i], m)))
  {
    assert NodeOk(s, i);
    DispatchKeeps(s, i, s.nodes[i], m);
  }

  lemma SendRunKeeps(s: Cluster, i: nat, to: nat, prev: nat, len: nat)
    requires Inv(s) && i in s.nodes && s.nodes[i].role == StateLeader && to in s.peers && to != i
    requires prev + len <= |s.nodes[i].log|
    ensures Inv(s.(net := s.net + {AppRun(s.nodes[i], to, prev, len)})) && Evolves(s, s.(net := s.net + {AppRun(s.nodes[i], to, prev, len)}))
  {
    hide Allowed, Evolves, FreshAck, HeartbeatFrom, ProgressOk, SetupOk, Traced;
    assert NodeOk(s, i);
    var n := s.nodes[i];
    var m := AppRun(n, to, prev, len);
    var r := n.(msgs := [m]);
    assert n.log[prev..prev + len] == m.entries;
    assert OnlySends(n, r) by {
      forall v | v in n.tracked.trk ensures SameProgress(n, r, v) {
      }
      assert AppFrom(n, m);
    }
    LeaderSendsAllowed(s, i, n, r);
    AllowedEvolves(s, i, r);
    assert Update(s, i, r).nodes == s.nodes;
    assert Update(s, i, r).elected == s.elected;
    assert Update(s, i, r) == s.(net := s.net + {m});
  }

  /** Re-applying a bootstrap entry changes no configuration; a leader may probe its peers. */
  lemma ConfAppliedShape(s: Cluster, n: NodeState, id: nat)
    requires SetupOk(s) && TrackedFixed(s, n.tracked) && id in s.peers && n.id in s.peers
    ensures ApplyConfChange(n, [ConfChangeSingle(ADD_NODE, id)])
            == if n.role == StateLeader then AppendToAll(n, SortedIds(n.tracked.trk.Keys), false) else n
  {
    ReAddIsIdentity(n.tracked, |n.log|, id);
    SwitchToSame(s, n);
  }

  lemma SwitchToSame(s: Cluster, n: NodeState)
    requires SetupOk(s) && TrackedFixed(s, n.tracked) && n.id in s.peers
    ensures SwitchToConfig(n, n.tracked)
            == if n.role == StateLeader then AppendToAll(n, SortedIds(n.tracked.trk.Keys), false) else n
  {
    assert n.(tracked := n.tracked) == n;
  }

  lemma ProbeAllKeeps(s: Cluster, i: nat, n: NodeState)
    requires Inv(s) && At(s, i, n) && n.role == StateLeader
    ensures Inv(Update(s, i, AppendToAll(n, SortedIds(n.tracked.trk.Keys), false))) && Evolves(s, Update(s, i, AppendToAll(n, SortedIds(n.tracked.trk.Keys), false)))
  {
    assert NodeOk(s, i);
    LeaderReachable(s, i, n);
    AppendToAllSends(n, SortedIds(n.tracked.trk.Keys), false);
    LeaderSendsAllowed(s, i, n, AppendToAll(n, SortedIds(n.tracked.trk.Keys), false));
    AllowedEvolves(s, i, AppendToAll(n, SortedIds(n.tracked.trk.Keys), false));
  }

  lemma ConfAppliedKeeps(s: Cluster, i: nat, id: nat)
    requires Inv(s) && i in s.nodes && id in s.peers
    ensures Inv(Update(s, i, ApplyConfChange(s.nodes[i], [ConfChangeSingle(ADD_NODE, id)]))) && Evolves(s, Update(s, i, ApplyConfChange(s.nodes[i], [ConfChangeSingle(ADD_NODE, id)])))
  {
    assert NodeOk(s, i);
    ConfAppliedShape(s, s.nodes[i], id);
    if s.nodes[i].role == StateLeader {
      ProbeAllKeeps(s, i, s.nodes[i]);
    } else {
      StayKeeps(s, i, s.nodes[i]);
    }
  }

  lemma AppliedKeeps(s: Cluster, i: nat, applied: nat)
    requires Inv(s) && i in s.nodes && applied <= s.nodes[i].committed
    ensures Inv(Update(s, i, s.nodes[i].(applied := applied))) && Evolves(s, Update(s, i, s.nodes[i].(applied := applied)))
  {
    assert NodeOk(s, i);
    var n := s.nodes[i];
    var r := n.(applied := applied);
    SameHistoryKept(s, i, n, r);
    var s2 := Update(s, i, r);
    if n.role == StateLeader {
      forall v | v in r.tracked.trk ensures ProgressOk(s2, r, v) {
        assert ProgressOk(s, n, v);
        MatchStays(s, s2, n, v, n.tracked.trk[v].matched);
      }
    }
    AllowedEvolves(s, i, r);
  }

  lemma NextKeeps(s: Cluster, e: Event, s': Cluster)
    requires Inv(s) && Next(s, e, s')
    ensures Inv(s') && Evolves(s, s')
  {
    match e {
      case Deliver(m) => DeliverKeeps(s, m);
      case Timeout(i) => LocalKeeps(s, i, Msg(MsgHup, 0).(from := i));
      case Beat(i) => LocalKeeps(s, i, Msg(MsgBeat, 0).(from := i));
      case Propose(i, es) => LocalKeeps(s, i, Msg(MsgProp, 0).(from := i, entries := es));
      case SendRun(i, to, prev, len) => SendRunKeeps(s, i, to, prev, len);
      case ConfApplied(i, id) => ConfAppliedKeeps(s, i, id);
      case AppliedTo(i, applied) => AppliedKeeps(s, i, applied);
    }
  }
}
