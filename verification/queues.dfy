/** The two outgoing queues of a node: only appended to, never read by the protocol. */
module Queues {
  import opened RaftTypes
  import opened LogSpec
  import opened Quorum
  import opened Tracker
  import opened ConfChange
  import opened RaftSpec

  // ---------------------------------------------------------------------
  // Every step only appends: messages for other nodes to one queue, acknowledgements to the other.

  predicate ForOthers(m: Message, id: nat) { !WaitsForAppend(m.mtype) && m.to != id }

  ghost predicate TypedAt(b: seq<Message>, k: nat, id: nat, waits: bool)
    requires k < |b|
  {
    if waits then WaitsForAppend(b[k].mtype) else ForOthers(b[k], id)
  }

  ghost predicate TypedAppend(a: seq<Message>, b: seq<Message>, id: nat, waits: bool) {
    && a <= b
    && forall k: nat {:trigger TypedAt(b, k, id, waits)} :: |a| <= k < |b| ==> TypedAt(b, k, id, waits)
  }

  ghost predicate Appends(n: NodeState, r: NodeState) {
    && r.id == n.id && (n.fault ==> r.fault)
    && TypedAppend(n.msgs, r.msgs, n.id, false)
    && TypedAppend(n.msgsAfterAppend, r.msgsAfterAppend, n.id, true)
  }

  lemma TypedTrans(a: seq<Message>, b: seq<Message>, c: seq<Message>, id: nat, waits: bool)
    requires TypedAppend(a, b, id, waits) && TypedAppend(b, c, id, waits)
    ensures TypedAppend(a, c, id, waits)
  {
    forall k: nat | |a| <= k < |c| ensures TypedAt(c, k, id, waits) {
      if k < |b| {
        assert TypedAt(b, k, id, waits) && c[k] == b[k];
      }
    }
  }

  lemma AppendsTrans(a: NodeState, b: NodeState, c: NodeState)
    requires Appends(a, b) && Appends(b, c)
    ensures Appends(a, c)
  {
    TypedTrans(a.msgs, b.msgs, c.msgs, a.id, false);
    TypedTrans(a.msgsAfterAppend, b.msgsAfterAppend, c.msgsAfterAppend, a.id, true);
  }

  lemma SendAppends(n: NodeState, m: Message)
    ensures Appends(n, Send(n, m))
  {
  }

  lemma AppendEntryAppends(n: NodeState, es: seq<Entry>)
    ensures Appends(n, AppendEntry(n, es))
  {
  }

  lemma MaybeSendAppends(n: NodeState, to: nat, sendIfEmpty: bool)
    ensures Appends(n, MaybeSendAppend(n, to, sendIfEmpty).0)
  {
    hide AppMsg, IsCampaignType, Send;
    if to in n.tracked.trk {
      var pr, ents := n.tracked.trk[to], EntriesFor(n, n.tracked.trk[to]);
      var p := pr.UpdateOnEntriesSend(|ents|);
      if 1 <= pr.next <= |n.log| + 1 && p.Some? {
        SendAppends(SetProgress(n, to, p.value), AppMsg(n, to, pr.next - 1, ents));
      }
    }
  }

  lemma {:induction false} AppendToAllAppends(n: NodeState, ids: seq<nat>, sendIfEmpty: bool)
    ensures Appends(n, AppendToAll(n, ids, sendIfEmpty))
    decreases |ids|
  {
    if ids != [] {
      var n1 := if ids[0] == n.id then n else MaybeSendAppend(n, ids[0], sendIfEmpty).0;
      MaybeSendAppends(n, ids[0], sendIfEmpty);
      AppendToAllAppends(n1, ids[1..], sendIfEmpty);
      AppendsTrans(n, n1, AppendToAll(n1, ids[1..], sendIfEmpty));
    }
  }

  lemma BcastAppends(n: NodeState)
    ensures Appends(n, BcastAppend(n))
  {
    AppendToAllAppends(n, SortedIds(n.tracked.trk.Keys), true);
  }

  lemma {:induction false} HeartbeatToAllAppends(n: NodeState, ids: seq<nat>)
    ensures Appends(n, HeartbeatToAll(n, ids))
    decreases |ids|
  {
    if ids != [] {
      var n1 := if ids[0] == n.id then n else SendHeartbeat(n, ids[0]);
      HeartbeatToAllAppends(n1, ids[1..]);
      AppendsTrans(n, n1, HeartbeatToAll(n1, ids[1..]));
    }
  }

  /** The vote for oneself or the request to another voter. */
  function Request(n: NodeState, id: nat, t: MessageType, term: nat): NodeState
    requires t == MsgVote || t == MsgPreVote
  {
    if id == n.id then Send(n, Msg(RespType(t), id).(term := term)) else Send(n, VoteRequest(n, t, id, term))
  }

  lemma RequestAppends(n: NodeState, id: nat, t: MessageType, term: nat)
    requires t == MsgVote || t == MsgPreVote
    ensures Appends(n, Request(n, id, t, term))
  {
    hide Appends, Send, VoteRequest;
    SendAppends(n, Msg(RespType(t), id).(term := term));
    SendAppends(n, VoteRequest(n, t, id, term));
  }

  lemma {:induction false} RequestVotesAppends(n: NodeState, ids: seq<nat>, t: MessageType, term: nat)
    requires t == MsgVote || t == MsgPreVote
    ensures Appends(n, RequestVotes(n, ids, t, term))
    decreases |ids|
  {
    hide Send, VoteRequest, RespType;
    if ids != [] {
      var n1 := Request(n, ids[0], t, term);
      RequestAppends(n, ids[0], t, term);
      RequestVotesAppends(n1, ids[1..], t, term);
      AppendsTrans(n, n1, RequestVotes(n1, ids[1..], t, term));
    }
  }

  lemma CampaignAppends(n: NodeState, pre: bool)
    ensures Appends(n, Campaign(n, pre))
  {
    hide RequestVotes;
    var n1 := if pre then BecomePreCandidate(n) else BecomeCandidate(n);
    var ids := SortedIds(n.tracked.cfg.voters.incoming + n.tracked.cfg.voters.outgoing);
    assert Appends(n, n1);
    if pre {
      RequestVotesAppends(n1, ids, MsgPreVote, n1.term + 1);
    } else {
      RequestVotesAppends(n1, ids, MsgVote, n1.term);
    }
    AppendsTrans(n, n1, Campaign(n, pre));
  }

  lemma BecomeLeaderAppends(n: NodeState)
    ensures Appends(n, BecomeLeader(n))
  {
    if n.role != StateFollower && n.id in n.tracked.trk {
      var n1 := Reset(n, n.term).(lead := n.id, role := StateLeader);
      var pr := n1.tracked.trk[n.id].BecomeReplicate().(recentActive := true);
      AppendEntryAppends(SetProgress(n1, n.id, pr).(pendingConfIndex := |n.log|), [EMPTY_ENTRY]);
    }
  }

  lemma WinAppends(n: NodeState)
    ensures Appends(n, BcastAppend(BecomeLeader(n)))
  {
    BecomeLeaderAppends(n);
    BcastAppends(BecomeLeader(n));
    AppendsTrans(n, BecomeLeader(n), BcastAppend(BecomeLeader(n)));
  }

  /** What follows a recorded vote. */
  ghost function Counted(n: NodeState): NodeState {
    match JointVote(n.tracked.cfg.voters, n.votes)
    case VoteWon => if n.role == StatePreCandidate then Campaign(n, false) else BcastAppend(BecomeLeader(n))
    case VoteLost => BecomeFollower(n, n.term, NONE)
    case VotePending => n
  }

  lemma CountedAppends(n: NodeState)
    ensures Appends(n, Counted(n))
  {
    match JointVote(n.tracked.cfg.voters, n.votes) {
      case VoteWon =>
        if n.role == StatePreCandidate {
          CampaignAppends(n, false);
        } else {
          WinAppends(n);
        }
      case _ =>
    }
  }

  lemma VoteResponseAppends(n: NodeState, m: Message)
    ensures Appends(n, HandleVoteResponse(n, m))
  {
    var n1 := RecordVote(n, m.from, !m.reject);
    CountedAppends(n1);
    AppendsTrans(n, n1, HandleVoteResponse(n, m));
  }

  lemma AppendEntriesAppends(n: NodeState, m: Message)
    ensures Appends(n, HandleAppendEntries(n, m))
  {
    hide FindConflict, MatchTerm, Send;
    SendAppends(n, Msg(MsgAppResp, m.from).(index := n.committed));
    if Contiguous(m.entries, m.index + 1) {
      var at := if m.index < |n.log| then m.index else |n.log|;
      var hint := FindConflictByTerm(n.log, at, m.logTerm);
      SendAppends(n, Msg(MsgAppResp, m.from).(index := m.index, reject := true,
                                              rejectHint := hint.0, logTerm := hint.1));
      var r := MaybeAppend(n.log, n.committed, m.index, m.logTerm, m.commit, m.entries);
      if r.Appended? {
        var a := n.(log := r.log, committed := r.committed);
        SendAppends(a, Msg(MsgAppResp, m.from).(index := r.lastnewi));
        AppendsTrans(n, a, Send(a, Msg(MsgAppResp, m.from).(index := r.lastnewi)));
      }
    }
  }

  lemma AppendResponseAppends(n: NodeState, m: Message)
    requires m.from in n.tracked.trk
    ensures Appends(n, HandleAppendResponse(n, m))
  {
    hide AppMsg, BcastAppend, EntriesFor, Fault, MaybeSendAppend, Unblocked;
    var pr := n.tracked.trk[m.from].(recentActive := true);
    var n1 := SetProgress(n, m.from, Unblocked(pr.MaybeUpdate(m.index).0));
    var n2 := if pr.IsPaused() then SendAppend(n1, m.from) else n1;
    MaybeSendAppends(n1, m.from, true);
    MaybeSendAppends(n2, m.from, false);
    AppendsTrans(n1, n2, MaybeSendAppend(n2, m.from, false).0);
    assert Appends(n, n1);
  }

  lemma ProposalAppends(n: NodeState, m: Message)
    ensures Appends(n, HandleProposal(n, m))
  {
    hide AppendEntry, BcastAppend, Screen;
    var (es, pending) := Screen(m.entries, n.pendingConfIndex, n.applied, |n.log|, Joint(n.tracked.cfg));
    var n1 := n.(pendingConfIndex := pending);
    AppendEntryAppends(n1, es);
    BcastAppends(AppendEntry(n1, es));
    AppendsTrans(n1, AppendEntry(n1, es), BcastAppend(AppendEntry(n1, es)));
  }

  lemma StepLeaderAppends(n: NodeState, m: Message)
    ensures Appends(n, StepLeader(n, m))
  {
    match m.mtype {
      case MsgBeat => HeartbeatToAllAppends(n, SortedIds(n.tracked.trk.Keys));
      case MsgProp => ProposalAppends(n, m);
      case MsgAppResp =>
        if m.from in n.tracked.trk {
          AppendResponseAppends(n, m);
        }
      case _ =>
    }
  }

  lemma StepCandidateAppends(n: NodeState, m: Message)
    ensures Appends(n, StepCandidate(n, m))
  {
    VoteResponseAppends(n, m);
    SendAppends(BecomeFollower(n, m.term, m.from), Msg(MsgHeartbeatResp, m.from));
  }

  lemma StepFollowerAppends(n: NodeState, m: Message)
    ensures Appends(n, StepFollower(n, m))
  {
    SendAppends(n, m.(to := n.lead));
    AppendEntriesAppends(n.(lead := m.from), m);
    SendAppends(n.(lead := m.from), Msg(MsgHeartbeatResp, m.from));
  }

  lemma StepRoleAppends(n: NodeState, m: Message)
    ensures Appends(n, StepRole(n, m))
  {
    match n.role {
      case StateLeader => StepLeaderAppends(n, m);
      case StateFollower => StepFollowerAppends(n, m);
      case _ => StepCandidateAppends(n, m);
    }
  }

  lemma VoteRequestAppends(n: NodeState, m: Message)
    requires m.mtype == MsgVote || m.mtype == MsgPreVote
    ensures Appends(n, HandleVoteRequest(n, m))
  {
    SendAppends(n, Msg(RespType(m.mtype), m.from).(term := m.term));
    SendAppends(n, Msg(RespType(m.mtype), m.from).(term := n.term, reject := true));
  }

  lemma DispatchAppends(n: NodeState, m: Message)
    ensures Appends(n, Dispatch(n, m))
  {
    if m.mtype == MsgHup {
      CampaignAppends(n, n.preVote);
    } else if m.mtype == MsgVote || m.mtype == MsgPreVote {
      VoteRequestAppends(n, m);
    } else {
      StepRoleAppends(n, m);
    }
  }

  lemma StepAppends(n: NodeState, m: Message)
    ensures Appends(n, Step(n, m))
  {
    DispatchAppends(n, m);
    DispatchAppends(BecomeFollower(n, m.term, if FromLeader(m) then m.from else NONE), m);
    SendAppends(n, Msg(MsgAppResp, m.from));
    SendAppends(n, Msg(MsgPreVoteResp, m.from).(term := n.term, reject := true));
  }

  lemma ApplyAppends(n: NodeState, ccs: seq<ConfChangeSingle>)
    ensures Appends(n, ApplyConfChange(n, ccs))
  {
    var t := Simple(n.tracked, |n.log|, ccs);
    if t.Some? {
      SwitchAppends(n, t.value);
    }
  }

  lemma SwitchAppends(n: NodeState, t: Tracked)
    ensures Appends(n, SwitchToConfig(n, t))
  {
    hide AppendToAll;
    AppendToAllAppends(n.(tracked := t), SortedIds(t.trk.Keys), false);
  }

  // ---------------------------------------------------------------------
  // The protocol never reads its queues: whatever already waits in them only stays in front.

  ghost function Ahead(n: NodeState, a: seq<Message>, b: seq<Message>): NodeState {
    n.(msgs := a + n.msgs, msgsAfterAppend := b + n.msgsAfterAppend)
  }

  lemma SendAhead(n: NodeState, m: Message, a: seq<Message>, b: seq<Message>)
    ensures Send(Ahead(n, a, b), m) == Ahead(Send(n, m), a, b)
  {
    if WaitsForAppend(m.mtype) {
      OneMoreBehind(b, n.msgsAfterAppend, Stamp(n, m));
    } else {
      OneMoreBehind(a, n.msgs, Stamp(n, m));
    }
    StampAhead(n, m, a, b);
  }

  lemma StampAhead(n: NodeState, m: Message, a: seq<Message>, b: seq<Message>)
    ensures Stamp(Ahead(n, a, b), m) == Stamp(n, m)
  {
  }

  lemma OneMoreBehind(a: seq<Message>, q: seq<Message>, m: Message)
    ensures (a + q) + [m] == a + (q + [m])
  {
  }

  lemma AppendEntryAhead(n: NodeState, es: seq<Entry>, a: seq<Message>, b: seq<Message>)
    ensures AppendEntry(Ahead(n, a, b), es) == Ahead(AppendEntry(n, es), a, b)
  {
    var n1 := if es == [] then n
              else if |n.log| < n.committed then Fault(n)
              else n.(log := n.log + StampEntries(es, n.term, |n.log|));
    SendAhead(n1, Msg(MsgAppResp, n.id).(index := |n1.log|), a, b);
  }

  lemma MaybeSendAhead(n: NodeState, to: nat, sendIfEmpty: bool, a: seq<Message>, b: seq<Message>)
    ensures MaybeSendAppend(Ahead(n, a, b), to, sendIfEmpty).0 == Ahead(MaybeSendAppend(n, to, sendIfEmpty).0, a, b)
  {
    if to in n.tracked.trk {
      var pr := n.tracked.trk[to];
      var ents := EntriesFor(n, pr);
      assert EntriesFor(Ahead(n, a, b), pr) == ents;
      var p := pr.UpdateOnEntriesSend(|ents|);
      if 1 <= pr.next <= |n.log| + 1 && p.Some? {
        TellAhead(n, to, p.value, AppMsg(n, to, pr.next - 1, ents), a, b);
      }
    }
  }

  lemma TellAhead(n: NodeState, to: nat, p: Progress, m: Message, a: seq<Message>, b: seq<Message>)
    ensures Send(SetProgress(Ahead(n, a, b), to, p), m) == Ahead(Send(SetProgress(n, to, p), m), a, b)
  {
    SendAhead(SetProgress(n, to, p), m, a, b);
  }

  lemma {:induction false} AppendToAllAhead(n: NodeState, ids: seq<nat>, sendIfEmpty: bool,
                                            a: seq<Message>, b: seq<Message>)
    ensures AppendToAll(Ahead(n, a, b), ids, sendIfEmpty) == Ahead(AppendToAll(n, ids, sendIfEmpty), a, b)
    decreases |ids|
  {
    if ids != [] {
      var n1 := if ids[0] == n.id then n else MaybeSendAppend(n, ids[0], sendIfEmpty).0;
      MaybeSendAhead(n, ids[0], sendIfEmpty, a, b);
      AppendToAllAhead(n1, ids[1..], sendIfEmpty, a, b);
    }
  }

  lemma BcastAhead(n: NodeState, a: seq<Message>, b: seq<Message>)
    ensures BcastAppend(Ahead(n, a, b)) == Ahead(BcastAppend(n), a, b)
  {
    AppendToAllAhead(n, SortedIds(n.tracked.trk.Keys), true, a, b);
  }

  lemma {:induction false} HeartbeatToAllAhead(n: NodeState, ids: seq<nat>, a: seq<Message>, b: seq<Message>)
    ensures HeartbeatToAll(Ahead(n, a, b), ids) == Ahead(HeartbeatToAll(n, ids), a, b)
    decreases |ids|
  {
    if ids != [] {
      var n1 := if ids[0] == n.id then n else SendHeartbeat(n, ids[0]);
      if ids[0] in n.tracked.trk {
        var matched := n.tracked.trk[ids[0]].matched;
        SendAhead(n, Msg(MsgHeartbeat, ids[0]).(commit := if matched < n.committed then matched else n.committed), a, b);
      }
      HeartbeatToAllAhead(n1, ids[1..], a, b);
    }
  }

  lemma {:induction false} RequestVotesAhead(n: NodeState, ids: seq<nat>, t: MessageType, term: nat,
                                             a: seq<Message>, b: seq<Message>)
    requires t == MsgVote || t == MsgPreVote
    ensures RequestVotes(Ahead(n, a, b), ids, t, term) == Ahead(RequestVotes(n, ids, t, term), a, b)
    decreases |ids|
  {
    if ids != [] {
      var m := if ids[0] == n.id then Msg(RespType(t), ids[0]).(term := term) else VoteRequest(n, t, ids[0], term);
      SendAhead(n, m, a, b);
      RequestVotesAhead(Send(n, m), ids[1..], t, term, a, b);
    }
  }

  ghost function Ask(n: NodeState, t: MessageType, term: nat): NodeState
    requires t == MsgVote || t == MsgPreVote
  {
    RequestVotes(n, SortedIds(n.tracked.cfg.voters.incoming + n.tracked.cfg.voters.outgoing), t, term)
  }

  lemma CampaignAsks(n: NodeState, pre: bool)
    ensures Campaign(n, pre) == if pre then Ask(BecomePreCandidate(n), MsgPreVote, n.term + 1)
                                else Ask(BecomeCandidate(n), MsgVote, BecomeCandidate(n).term)
  {
  }

  lemma CampaignAhead(n: NodeState, pre: bool, a: seq<Message>, b: seq<Message>)
    ensures Campaign(Ahead(n, a, b), pre) == Ahead(Campaign(n, pre), a, b)
  {
    CampaignAsks(n, pre);
    CampaignAsks(Ahead(n, a, b), pre);
    if pre {
      AskAhead(BecomePreCandidate(n), MsgPreVote, n.term + 1, a, b);
    } else {
      CandidateAhead(n, a, b);
      AskAhead(BecomeCandidate(n), MsgVote, BecomeCandidate(n).term, a, b);
    }
  }

  lemma CandidateAhead(n: NodeState, a: seq<Message>, b: seq<Message>)
    ensures BecomeCandidate(Ahead(n, a, b)) == Ahead(BecomeCandidate(n), a, b)
  {
  }

  lemma AskAhead(n: NodeState, t: MessageType, term: nat, a: seq<Message>, b: seq<Message>)
    requires t == MsgVote || t == MsgPreVote
    ensures Ask(Ahead(n, a, b), t, term) == Ahead(Ask(n, t, term), a, b)
  {
    RequestVotesAhead(n, SortedIds(n.tracked.cfg.voters.incoming + n.tracked.cfg.voters.outgoing), t, term, a, b);
  }

  lemma BecomeLeaderAhead(n: NodeState, a: seq<Message>, b: seq<Message>)
    ensures BecomeLeader(Ahead(n, a, b)) == Ahead(BecomeLeader(n), a, b)
  {
    if n.role != StateFollower && n.id in n.tracked.trk {
      var n1 := Reset(n, n.term).(lead := n.id, role := StateLeader);
      var pr := n1.tracked.trk[n.id].BecomeReplicate().(recentActive := true);
      AppendEntryAhead(SetProgress(n1, n.id, pr).(pendingConfIndex := |n.log|), [EMPTY_ENTRY], a, b);
    }
  }

  lemma CountedAhead(n: NodeState, a: seq<Message>, b: seq<Message>)
    ensures Counted(Ahead(n, a, b)) == Ahead(Counted(n), a, b)
  {
    match JointVote(n.tracked.cfg.voters, n.votes) {
      case VoteWon =>
        if n.role == StatePreCandidate {
          CampaignAhead(n, false, a, b);
        } else {
          BecomeLeaderAhead(n, a, b);
          BcastAhead(BecomeLeader(n), a, b);
        }
      case _ =>
    }
  }

  lemma VoteRequestAhead(n: NodeState, m: Message, a: seq<Message>, b: seq<Message>)
    requires m.mtype == MsgVote || m.mtype == MsgPreVote
    ensures HandleVoteRequest(Ahead(n, a, b), m) == Ahead(HandleVoteRequest(n, m), a, b)
  {
    SendAhead(n, Msg(RespType(m.mtype), m.from).(term := m.term), a, b);
    SendAhead(n, Msg(RespType(m.mtype), m.from).(term := n.term, reject := true), a, b);
  }

  lemma AppendEntriesAhead(n: NodeState, m: Message, a: seq<Message>, b: seq<Message>)
    ensures HandleAppendEntries(Ahead(n, a, b), m) == Ahead(HandleAppendEntries(n, m), a, b)
  {
    SendAhead(n, Msg(MsgAppResp, m.from).(index := n.committed), a, b);
    if Contiguous(m.entries, m.index + 1) {
      var at := if m.index < |n.log| then m.index else |n.log|;
      var hint := FindConflictByTerm(n.log, at, m.logTerm);
      SendAhead(n, Msg(MsgAppResp, m.from).(index := m.index, reject := true,
                                            rejectHint := hint.0, logTerm := hint.1), a, b);
      var r := MaybeAppend(n.log, n.committed, m.index, m.logTerm, m.commit, m.entries);
      if r.Appended? {
        SendAhead(n.(log := r.log, committed := r.committed), Msg(MsgAppResp, m.from).(index := r.lastnewi), a, b);
      }
    }
  }

  lemma AppendResponseAhead(n: NodeState, m: Message, a: seq<Message>, b: seq<Message>)
    requires m.from in n.tracked.trk
    ensures HandleAppendResponse(Ahead(n, a, b), m) == Ahead(HandleAppendResponse(n, m), a, b)
  {
    hide AppMsg, MaybeSendAppend;
    var pr := n.tracked.trk[m.from].(recentActive := true);
    var n1 := SetProgress(n, m.from, Unblocked(pr.MaybeUpdate(m.index).0));
    if !m.reject {
      var n2 := if pr.IsPaused() then SendAppend(n1, m.from) else n1;
      MaybeSendAhead(n1, m.from, true, a, b);
      MaybeSendAhead(n2, m.from, false, a, b);
    }
  }

  lemma ProposalAhead(n: NodeState, m: Message, a: seq<Message>, b: seq<Message>)
    ensures HandleProposal(Ahead(n, a, b), m) == Ahead(HandleProposal(n, m), a, b)
  {
    hide AppendEntry;
    var (es, pending) := Screen(m.entries, n.pendingConfIndex, n.applied, |n.log|, Joint(n.tracked.cfg));
    AppendEntryAhead(n.(pendingConfIndex := pending), es, a, b);
    BcastAhead(AppendEntry(n.(pendingConfIndex := pending), es), a, b);
  }

  lemma StepLeaderAhead(n: NodeState, m: Message, a: seq<Message>, b: seq<Message>)
    ensures StepLeader(Ahead(n, a, b), m) == Ahead(StepLeader(n, m), a, b)
  {
    match m.mtype {
      case MsgBeat => HeartbeatToAllAhead(n, SortedIds(n.tracked.trk.Keys), a, b);
      case MsgProp => ProposalAhead(n, m, a, b);
      case MsgAppResp =>
        if m.from in n.tracked.trk {
          AppendResponseAhead(n, m, a, b);
        }
      case _ =>
    }
  }

  lemma StepFollowerAhead(n: NodeState, m: Message, a: seq<Message>, b: seq<Message>)
    ensures StepFollower(Ahead(n, a, b), m) == Ahead(StepFollower(n, m), a, b)
  {
    match m.mtype {
      case MsgProp => SendAhead(n, m.(to := n.lead), a, b);
      case MsgApp => AppendEntriesAhead(n.(lead := m.from), m, a, b);
      case MsgHeartbeat => SendAhead(n.(lead := m.from), Msg(MsgHeartbeatResp, m.from), a, b);
      case _ =>
    }
  }

  lemma FollowerAhead(n: NodeState, term: nat, lead: nat, a: seq<Message>, b: seq<Message>)
    ensures BecomeFollower(Ahead(n, a, b), term, lead) == Ahead(BecomeFollower(n, term, lead), a, b)
  {
  }

  lemma ResponseIsCounted(n: NodeState, m: Message)
    ensures HandleVoteResponse(n, m) == Counted(RecordVote(n, m.from, !m.reject))
  {
  }

  lemma VoteResponseAhead(n: NodeState, m: Message, a: seq<Message>, b: seq<Message>)
    ensures HandleVoteResponse(Ahead(n, a, b), m) == Ahead(HandleVoteResponse(n, m), a, b)
  {
    ResponseIsCounted(n, m);
    ResponseIsCounted(Ahead(n, a, b), m);
    CountedAhead(RecordVote(n, m.from, !m.reject), a, b);
  }

  lemma StepCandidateAhead(n: NodeState, m: Message, a: seq<Message>, b: seq<Message>)
    ensures StepCandidate(Ahead(n, a, b), m) == Ahead(StepCandidate(n, m), a, b)
  {
    if m.mtype == MsgApp || m.mtype == MsgSnap {
      FollowerAhead(n, m.term, m.from, a, b);
    } else if m.mtype == MsgHeartbeat {
      FollowerAhead(n, m.term, m.from, a, b);
      SendAhead(BecomeFollower(n, m.term, m.from), Msg(MsgHeartbeatResp, m.from), a, b);
    } else {
      VoteResponseAhead(n, m, a, b);
    }
  }

  lemma StepRoleAhead(n: NodeState, m: Message, a: seq<Message>, b: seq<Message>)
    ensures StepRole(Ahead(n, a, b), m) == Ahead(StepRole(n, m), a, b)
  {
    match n.role {
      case StateLeader => StepLeaderAhead(n, m, a, b);
      case StateFollower => StepFollowerAhead(n, m, a, b);
      case _ => StepCandidateAhead(n, m, a, b);
    }
  }

  lemma DispatchAhead(n: NodeState, m: Message, a: seq<Message>, b: seq<Message>)
    ensures Dispatch(Ahead(n, a, b), m) == Ahead(Dispatch(n, m), a, b)
  {
    if m.mtype == MsgHup {
      CampaignAhead(n, n.preVote, a, b);
    } else if m.mtype == MsgVote || m.mtype == MsgPreVote {
      VoteRequestAhead(n, m, a, b);
    } else {
      StepRoleAhead(n, m, a, b);
    }
  }

  /** A node that still holds messages back steps like one whose messages have all been sent. */
  lemma StepAhead(n: NodeState, m: Message, a: seq<Message>, b: seq<Message>)
    ensures Step(Ahead(n, a, b), m) == Ahead(Step(n, m), a, b)
  {
    hide BecomeFollower, IsCampaignType, KeepsTerm, Msg, StepRole;
    FollowerAhead(n, m.term, if FromLeader(m) then m.from else NONE, a, b);
    DispatchAhead(n, m, a, b);
    DispatchAhead(BecomeFollower(n, m.term, if FromLeader(m) then m.from else NONE), m, a, b);
    SendAhead(n, Msg(MsgAppResp, m.from), a, b);
    SendAhead(n, Msg(MsgPreVoteResp, m.from).(term := n.term, reject := true), a, b);
  }

  lemma SwitchAhead(n: NodeState, t: Tracked, a: seq<Message>, b: seq<Message>)
    ensures SwitchToConfig(Ahead(n, a, b), t) == Ahead(SwitchToConfig(n, t), a, b)
  {
    hide AppendToAll, BcastAppend;
    var n2 := MaybeCommit(n.(tracked := t)).0;
    assert MaybeCommit(Ahead(n, a, b).(tracked := t)) == (Ahead(n2, a, b), MaybeCommit(n.(tracked := t)).1);
    BcastAhead(n2, a, b);
    AppendToAllAhead(n2, SortedIds(t.trk.Keys), false, a, b);
  }

  lemma ApplyAhead(n: NodeState, ccs: seq<ConfChangeSingle>, a: seq<Message>, b: seq<Message>)
    ensures ApplyConfChange(Ahead(n, a, b), ccs) == Ahead(ApplyConfChange(n, ccs), a, b)
  {
    var t := Simple(n.tracked, |n.log|, ccs);
    if t.Some? {
      SwitchAhead(n, t.value, a, b);
    }
  }
}
