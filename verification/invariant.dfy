/** The inductive invariant of the cluster and the local rule that every node step obeys. */
module Invariant {
  import opened RaftTypes
  import opened LogSpec
  import opened Quorum
  import opened Tracker
  import opened ConfChange
  import opened ConfEntry
  import opened RaftSpec
  import opened Cluster

  // ---------------------------------------------------------------------
  // Logs.

  /** Both logs reach index `k` and agree up to it. */
  ghost predicate Holds(a: seq<Entry>, b: seq<Entry>, k: nat) {
    k <= |a| && k <= |b| && a[..k] == b[..k]
  }

  ghost predicate TracedAt(s: Cluster, log: seq<Entry>, k: nat)
    requires k < |log|
  {
    log[k].term in s.elected && Holds(log, s.elected[log[k].term].log, k + 1)
  }

  /** Every entry past the bootstrap ones sits, with all before it, in its leader's log. */
  ghost predicate Traced(s: Cluster, log: seq<Entry>) {
    s.boot <= log && forall k {:trigger TracedAt(s, log, k)} :: |s.boot| <= k < |log| ==> TracedAt(s, log, k)
  }

  ghost predicate TermsWithin(log: seq<Entry>, t: nat) {
    TermsSorted(log) && forall k :: 0 <= k < |log| ==> log[k].term <= t
  }

  // ---------------------------------------------------------------------
  // Votes and acknowledgements.

  ghost function GrantMsg(v: nat, c: nat, t: nat): Message {
    Msg(MsgVoteResp, c).(from := v, term := t)
  }

  ghost predicate Granted(s: Cluster, v: nat, c: nat, t: nat) { GrantMsg(v, c, t) in s.net }

  ghost predicate WonBy(s: Cluster, q: set<nat>, c: nat, t: nat) {
    IsQuorum(q, s.peers) && forall v {:trigger Granted(s, v, c, t)} :: v in q ==> Granted(s, v, c, t)
  }

  ghost predicate IsAck(m: Message) { m.mtype == MsgAppResp && !m.reject }

  ghost predicate AckOf(m: Message, v: nat, t: nat, k: nat) {
    IsAck(m) && m.from == v && m.term == t && m.index >= k
  }

  /** Node `v` has acknowledged index `k` or more to the leader of term `t`. */
  ghost predicate Acked(s: Cluster, v: nat, t: nat, k: nat) {
    exists m {:trigger AckOf(m, v, t, k)} :: m in s.net && AckOf(m, v, t, k)
  }

  // ---------------------------------------------------------------------
  // The invariant, part by part.

  ghost predicate SetupOk(s: Cluster) {
    && 0 !in s.peers && s.peers != {} && s.nodes.Keys == s.peers
    && s.boot != [] && Contiguous(s.boot, 1)
    && forall k :: 0 <= k < |s.boot| ==> s.boot[k].term == 1
  }

  ghost predicate TrackedFixed(s: Cluster, t: Tracked) {
    && t.cfg == Config(JointConfig(s.peers, {}), {}, {})
    && t.trk.Keys == s.peers
    && forall v :: v in t.trk ==> !t.trk[v].isLearner
  }

  ghost predicate LeadOk(s: Cluster, n: NodeState) {
    n.lead != NONE ==> n.term in s.elected && s.elected[n.term].leader == n.lead
  }

  ghost predicate VotesBacked(s: Cluster, n: NodeState) {
    forall v {:trigger Granted(s, v, n.id, n.term)} :: v in n.votes && n.votes[v] ==> Granted(s, v, n.id, n.term)
  }

  /** What the leader records about `v` is backed by an acknowledgement of its own term. */
  ghost predicate MatchBacked(s: Cluster, n: NodeState, v: nat, k: nat) {
    || k == 0
    || (v == n.id && Camp(n.term, n.id) in s.camps && k <= |s.camps[Camp(n.term, n.id)]|)
    || Acked(s, v, n.term, k)
  }

  ghost predicate ProgressOk(s: Cluster, n: NodeState, v: nat)
    requires v in n.tracked.trk
  {
    var p := n.tracked.trk[v];
    && p.matched < p.next <= |n.log| + 1
    && p.state != StateSnapshot
    && MatchBacked(s, n, v, p.matched)
    && (v == n.id ==> !p.msgAppFlowPaused)
  }

  /** Every configuration change in the log is at or below the pending index. */
  ghost predicate PendingOk(n: NodeState) {
    && n.pendingConfIndex <= |n.log|
    && forall k :: 0 <= k < |n.log| && IsConfChange(n.log[k]) ==> k + 1 <= n.pendingConfIndex
  }

  ghost predicate LeaderOk(s: Cluster, n: NodeState) {
    && n.term in s.elected && s.elected[n.term] == Election(n.id, n.log)
    && n.lead == n.id && PendingOk(n)
    && forall v {:trigger ProgressOk(s, n, v)} :: v in n.tracked.trk ==> ProgressOk(s, n, v)
  }

  ghost predicate CandidateOk(s: Cluster, n: NodeState) {
    && Camp(n.term, n.id) in s.camps && s.camps[Camp(n.term, n.id)] == n.log
    && n.vote == n.id && VotesBacked(s, n)
  }

  ghost predicate NodeOk(s: Cluster, i: nat)
    requires i in s.nodes
  {
    var n := s.nodes[i];
    && n.id == i && n.term >= 1 && !n.fault && n.msgs == [] && n.msgsAfterAppend == []
    && TrackedFixed(s, n.tracked)
    && n.committed == |s.boot| && n.applied <= n.committed
    && Contiguous(n.log, 1) && Traced(s, n.log) && TermsWithin(n.log, n.term)
    && LeadOk(s, n)
    && (n.role == StateLeader ==> LeaderOk(s, n))
    && (n.role == StateCandidate ==> CandidateOk(s, n))
  }

  ghost predicate CampOk(s: Cluster, c: Camp)
    requires c in s.camps
  {
    && c.id in s.nodes && c.term >= 2 && s.nodes[c.id].term >= c.term
    && Contiguous(s.camps[c], 1) && Traced(s, s.camps[c]) && TermsWithin(s.camps[c], c.term - 1)
  }

  /** The leader's log is its campaign log followed by entries of its own term. */
  ghost predicate GrownFrom(log: seq<Entry>, camp: seq<Entry>, t: nat) {
    && camp <= log && |camp| < |log| && Contiguous(log, 1)
    && forall k :: |camp| <= k < |log| ==> log[k].term == t
  }

  ghost predicate ElectionWon(s: Cluster, t: nat)
    requires t in s.elected
  {
    var c := s.elected[t].leader;
    && c in s.nodes && s.nodes[c].term >= t
    && (s.nodes[c].term == t ==> s.nodes[c].role == StateLeader)
    && exists q :: WonBy(s, q, c, t)
  }

  ghost predicate ElectionLog(s: Cluster, t: nat)
    requires t in s.elected
  {
    var e := s.elected[t];
    && Camp(t, e.leader) in s.camps
    && GrownFrom(e.log, s.camps[Camp(t, e.leader)], t)
    && Traced(s, e.log) && TermsWithin(e.log, t)
  }

  ghost predicate GrantOk(s: Cluster, m: Message) {
    && m == GrantMsg(m.from, m.to, m.term)
    && m.from in s.nodes && Camp(m.term, m.to) in s.camps
    && s.nodes[m.from].term >= m.term
    && (s.nodes[m.from].term == m.term ==> s.nodes[m.from].vote == m.to)
  }

  ghost predicate VoteRequestOk(s: Cluster, m: Message) {
    && Camp(m.term, m.from) in s.camps
    && m.index == |s.camps[Camp(m.term, m.from)]|
    && m.logTerm == LastTerm(s.camps[Camp(m.term, m.from)])
  }

  ghost predicate AppOk(s: Cluster, m: Message) {
    && m.term in s.elected && s.elected[m.term].leader == m.from
    && var log := s.elected[m.term].log;
       && m.index + |m.entries| <= |log|
       && m.entries == log[m.index..m.index + |m.entries|]
       && TermOf(log, m.index) == Some(m.logTerm)
       && m.commit <= |s.boot|
  }

  ghost predicate AckOk(s: Cluster, m: Message) {
    && m.from in s.nodes
    && (m.index > 0 ==>
          && m.term in s.elected && m.index <= |s.elected[m.term].log|
          && s.nodes[m.from].term >= m.term
          && (s.nodes[m.from].term == m.term ==>
                Holds(s.nodes[m.from].log, s.elected[m.term].log, m.index)))
  }

  ghost predicate MsgOk(s: Cluster, m: Message) {
    && m.from in s.peers
    && (m.mtype == MsgProp <==> m.term == 0)
    && match m.mtype
       case MsgProp => Proposable(m.entries)
       case MsgApp => AppOk(s, m) && m.to != m.from
       case MsgHeartbeat => m.term in s.elected && s.elected[m.term].leader == m.from && m.to != m.from
       case MsgVote => VoteRequestOk(s, m) && m.to != m.from
       case MsgVoteResp => m.reject || GrantOk(s, m)
       case MsgAppResp => m.reject || AckOk(s, m)
       case MsgPreVote => m.to != m.from
       case MsgHup => false
       case MsgBeat => false
       case MsgSnap => false
       case _ => true
  }

  ghost predicate OneVote(s: Cluster) {
    forall v: nat, c1: nat, c2: nat, t: nat :: Granted(s, v, c1, t) && Granted(s, v, c2, t) ==> c1 == c2
  }

  // ---------------------------------------------------------------------
  // Leader completeness.

  /** A majority has acknowledged index `k` in term `t`, or still could. */
  ghost predicate ChosenBy(s: Cluster, q: set<nat>, t: nat, k: nat) {
    IsQuorum(q, s.peers) && forall v {:trigger MayAck(s, v, t, k)} :: v in q ==> MayAck(s, v, t, k)
  }

  ghost predicate MayAck(s: Cluster, v: nat, t: nat, k: nat) {
    v in s.nodes && (Acked(s, v, t, k) || s.nodes[v].term <= t)
  }

  /** Entry `k` belongs to term `t` and is, or may still become, acknowledged by a majority. */
  ghost predicate Protected(s: Cluster, t: nat, k: nat) {
    && t in s.elected && 1 <= k <= |s.elected[t].log| && s.elected[t].log[k - 1].term == t
    && exists q :: ChosenBy(s, q, t, k)
  }

  ghost predicate LeaderHolds(s: Cluster, t: nat, k: nat, t': nat) {
    t < t' && t' in s.elected && Protected(s, t, k) ==> Holds(s.elected[t'].log, s.elected[t].log, k)
  }

  ghost predicate AckerHolds(s: Cluster, t: nat, k: nat, v: nat) {
    v in s.nodes && Protected(s, t, k) && Acked(s, v, t, k) ==> Holds(s.nodes[v].log, s.elected[t].log, k)
  }

  ghost predicate GrantCarries(s: Cluster, t: nat, k: nat, v: nat, c: Camp) {
    t < c.term && Granted(s, v, c.id, c.term) && Protected(s, t, k) && Acked(s, v, t, k) ==>
      c in s.camps && Holds(s.camps[c], s.elected[t].log, k)
  }

  /** Every later leader holds each protected entry and all before it. */
  ghost predicate LeadersComplete(s: Cluster) {
    forall t: nat, k: nat, t': nat {:trigger LeaderHolds(s, t, k, t')} :: LeaderHolds(s, t, k, t')
  }

  /** Nodes that acknowledged a protected entry still hold it. */
  ghost predicate AckersHold(s: Cluster) {
    forall t: nat, k: nat, v: nat {:trigger AckerHolds(s, t, k, v)} :: AckerHolds(s, t, k, v)
  }

  /** A vote by such a node went to a candidate that held it too. */
  ghost predicate GrantsCarry(s: Cluster) {
    forall t: nat, k: nat, v: nat, c: Camp {:trigger GrantCarries(s, t, k, v, c)} :: GrantCarries(s, t, k, v, c)
  }

  ghost predicate NodesOk(s: Cluster) {
    forall i {:trigger NodeOk(s, i)} :: i in s.nodes ==> NodeOk(s, i)
  }

  ghost predicate CampsOk(s: Cluster) {
    forall c {:trigger CampOk(s, c)} :: c in s.camps ==> CampOk(s, c)
  }

  ghost predicate ElectionsWon(s: Cluster) {
    forall t {:trigger ElectionWon(s, t)} :: t in s.elected ==> ElectionWon(s, t)
  }

  ghost predicate ElectionLogs(s: Cluster) {
    forall t {:trigger ElectionLog(s, t)} :: t in s.elected ==> ElectionLog(s, t)
  }

  ghost predicate NetOk(s: Cluster) {
    forall m {:trigger MsgOk(s, m)} :: m in s.net ==> MsgOk(s, m)
  }

  ghost predicate Shape(s: Cluster) {
    SetupOk(s) && NodesOk(s) && CampsOk(s) && ElectionsWon(s) && ElectionLogs(s) && NetOk(s) && OneVote(s)
  }

  ghost predicate Complete(s: Cluster) {
    LeadersComplete(s) && AckersHold(s) && GrantsCarry(s)
  }

  ghost predicate Inv(s: Cluster) { Shape(s) && Complete(s) }

  // ---------------------------------------------------------------------
  // The local rule for replacing node `i` by `n2`.

  /** The log after a follower append: unchanged, or a prefix of the leader's log that loses nothing shared. */
  ghost predicate Accepts(s: Cluster, n: NodeState, n2: NodeState) {
    && n.term == n2.term && n2.term in s.elected && n2.log <= s.elected[n2.term].log
    && s.boot <= n2.log
    && forall k: nat :: Holds(n.log, s.elected[n2.term].log, k) ==> k <= |n2.log|
  }

  ghost predicate CandidateRule(s: Cluster, n: NodeState, n2: NodeState) {
    && n2.log == n.log && n2.vote == n.id && VotesBacked(s, n2)
    && (n.term < n2.term || (n.term == n2.term && n.role == StateCandidate))
  }

  ghost predicate LeaderRule(s: Cluster, n: NodeState, n2: NodeState) {
    && n.term == n2.term && n.log <= n2.log && Contiguous(n2.log, 1)
    && (forall k :: |n.log| <= k < |n2.log| ==> n2.log[k].term == n2.term)
    && n2.lead == n.id && PendingOk(n2)
    && (n.role == StateLeader
        || (n.role == StateCandidate && |n.log| < |n2.log| && exists q :: WonBy(s, q, n.id, n2.term)))
  }

  ghost predicate RoleRule(s: Cluster, n: NodeState, n2: NodeState) {
    && (n.role == StateLeader && n.term == n2.term ==> n2.role == StateLeader)
    && match n2.role
       case StateCandidate => CandidateRule(s, n, n2)
       case StateLeader => LeaderRule(s, n, n2)
       case _ => n2.log == n.log || Accepts(s, n, n2)
  }

  /** The conditions on one new message, in the state `s2` that it is sent from. */
  ghost predicate NewMsg(s: Cluster, s2: Cluster, n: NodeState, n2: NodeState, m: Message) {
    && m.from in s.peers
    && (m.mtype == MsgProp <==> m.term == 0)
    && (m.mtype != MsgProp ==> m.from == n.id)
    && match m.mtype
       case MsgProp => Proposable(m.entries)
       case MsgApp => n2.role == StateLeader && AppOk(s2, m) && m.to != m.from
       case MsgHeartbeat => n2.role == StateLeader && m.term == n2.term && m.to != m.from
       case MsgVote => VoteRequestOk(s2, m) && m.to != m.from
       case MsgVoteResp => m.reject || NewGrant(s2, n, n2, m)
       case MsgAppResp => m.reject || m.index == 0 || NewAck(s2, n2, m)
       case MsgPreVote => m.to != m.from
       case MsgHup => false
       case MsgBeat => false
       case MsgSnap => false
       case _ => true
  }

  /** A vote goes to the recorded candidate, whose campaign log is up to date. */
  ghost predicate NewGrant(s2: Cluster, n: NodeState, n2: NodeState, m: Message) {
    && m == GrantMsg(n.id, n2.vote, n2.term) && n2.log == n.log
    && Camp(m.term, m.to) in s2.camps
    && UpToDate(n2.log, |s2.camps[Camp(m.term, m.to)]|, LastTerm(s2.camps[Camp(m.term, m.to)]))
  }

  ghost predicate NewAck(s2: Cluster, n2: NodeState, m: Message) {
    m.term == n2.term && n2.term in s2.elected && Holds(n2.log, s2.elected[n2.term].log, m.index)
  }

  ghost predicate Allowed(s: Cluster, i: nat, n2: NodeState)
    requires i in s.nodes
  {
    var n := s.nodes[i];
    var s2 := Update(s, i, n2);
    && n2.id == i && !n2.fault
    && TrackedFixed(s, n2.tracked)
    && n2.committed == n.committed && n2.applied <= n2.committed
    && n.term <= n2.term
    && (n.term == n2.term && n.vote != NONE ==> n2.vote == n.vote)
    && LeadOk(s2, n2)
    && RoleRule(s, n, n2)
    && (n2.role == StateLeader ==> forall v {:trigger ProgressOk(s2, n2, v)} :: v in n2.tracked.trk ==> ProgressOk(s2, n2, v))
    && forall m {:trigger NewMsg(s, s2, n, n2, m)} :: m in Out(n2) ==> m in s.net || NewMsg(s, s2, n, n2, m)
  }
}
