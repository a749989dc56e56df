/** The theorems about every run of the cluster. */
module Safety {
  import opened RaftTypes
  import opened LogSpec
  import opened Quorum
  import opened Tracker
  import opened ConfChange
  import opened ConfEntry
  import opened RaftSpec
  import opened Cluster
  import opened Invariant
  import opened Preserve
  import opened Completeness
  import opened NodeSteps
  import opened Replication
  import opened Events

  // ---------------------------------------------------------------------
  // The initial state.

  lemma AddOneVoter(t: Tracked, last: nat, id: nat)
    requires TrackedOk(t) && t.cfg.voters.outgoing == {} && t.cfg.learners == {} && t.cfg.learnersNext == {}
    requires id != 0
    ensures Simple(t, last, [ConfChangeSingle(ADD_NODE, id)]) == Some(MakeVoter(t, id, last))
  {
    var ccs := [ConfChangeSingle(ADD_NODE, id)];
    assert ccs[..0] == [] && ApplyAll(t, last, []) == Some(t);
    OneMore(t.cfg.voters.incoming, id);
  }

  lemma MakeVoterKeeps(t: Tracked, last: nat, id: nat)
    requires PlainVoters(t) && id != 0
    ensures PlainVoters(MakeVoter(t, id, last))
  {
  }

  lemma OneMore(s: set<nat>, id: nat)
    ensures |s - (s + {id})| + |(s + {id}) - s| <= 1
  {
    assert s - (s + {id}) == {};
    SubsetCard((s + {id}) - s, {id});
  }

  ghost predicate PlainVoters(t: Tracked) {
    && TrackedOk(t)
    && t.cfg.voters.outgoing == {} && t.cfg.learners == {} && t.cfg.learnersNext == {}
  }

  /** Only the configuration changed, and it gained the voters `more`. */
  ghost predicate Gained(n: NodeState, r: NodeState, more: set<nat>) {
    && r == n.(tracked := r.tracked) && PlainVoters(r.tracked)
    && r.tracked.cfg.voters.incoming == n.tracked.cfg.voters.incoming + more
  }

  lemma GainedTrans(n: NodeState, a: NodeState, b: NodeState, m1: set<nat>, m2: set<nat>)
    requires Gained(n, a, m1) && Gained(a, b, m2)
    ensures Gained(n, b, m1 + m2)
  {
  }

  lemma AddPeerShape(n: NodeState, id: nat)
    requires PlainVoters(n.tracked) && id != 0 && n.role == StateFollower
    ensures Gained(n, ApplyConfChange(n, [ConfChangeSingle(ADD_NODE, id)]), {id})
  {
    hide ApplyAll, Simple;
    AddOneVoter(n.tracked, |n.log|, id);
    MakeVoterKeeps(n.tracked, |n.log|, id);
  }

  lemma FirstPeer(n: NodeState, peers: seq<nat>) returns (a: NodeState)
    requires PlainVoters(n.tracked) && 0 !in peers && n.role == StateFollower && peers != []
    ensures Gained(n, a, {peers[0]}) && AddPeers(n, peers) == AddPeers(a, peers[1..])
  {
    a := ApplyConfChange(n, [ConfChangeSingle(ADD_NODE, peers[0])]);
    AddPeerShape(n, peers[0]);
  }

  lemma ConsElems(peers: seq<nat>)
    requires peers != []
    ensures Elems(peers) == {peers[0]} + Elems(peers[1..])
  {
    assert peers == [peers[0]] + peers[1..];
  }

  lemma NoPeers(n: NodeState)
    requires PlainVoters(n.tracked)
    ensures Gained(n, AddPeers(n, []), Elems([]))
  {
    assert n.tracked.cfg.voters.incoming + Elems([]) == n.tracked.cfg.voters.incoming;
  }

  lemma {:induction false} AddPeersShape(n: NodeState, peers: seq<nat>)
    requires PlainVoters(n.tracked) && 0 !in peers && n.role == StateFollower
    ensures Gained(n, AddPeers(n, peers), Elems(peers))
    decreases |peers|
  {
    if peers == [] {
      NoPeers(n);
    } else {
      var a := FirstPeer(n, peers);
      AddPeersShape(a, peers[1..]);
      GainedTrans(n, a, AddPeers(a, peers[1..]), {peers[0]}, Elems(peers[1..]));
      ConsElems(peers);
    }
  }

  ghost predicate FreshNode(s: Cluster, id: nat, r: NodeState) {
    && r.id == id && r.term == 1 && r.role == StateFollower && r.lead == NONE && !r.fault
    && r.log == s.boot && r.committed == |s.boot| && r.applied == 0
    && r.msgs == [] && r.msgsAfterAppend == [] && TrackedFixed(s, r.tracked)
  }

  lemma BootstrapShape(s: Cluster, id: nat, pv: bool, cq: bool, mx: nat, peers: seq<nat>, payload: nat -> seq<byte>)
    requires 0 !in peers && s.peers == Elems(peers) && s.boot == BootEntries(peers, payload)
    ensures FreshNode(s, id, Bootstrap(NewNode(id, pv, cq, mx), peers, payload))
  {
    var n1 := BecomeFollower(NewNode(id, pv, cq, mx), 1, NONE);
    AddPeersShape(n1.(log := BootEntries(peers, payload), committed := |peers|), peers);
  }

  lemma InitNodeOk(s: Cluster, i: nat)
    requires SetupOk(s) && i in s.nodes && FreshNode(s, i, s.nodes[i])
    ensures NodeOk(s, i)
  {
    forall j: nat, k: nat | j <= k < |s.boot| ensures TermLe(s.boot, j, k) {
    }
  }

  lemma InitSetup(s: Cluster, peers: seq<nat>, payload: nat -> seq<byte>)
    requires Init(s, peers, payload)
    ensures SetupOk(s)
  {
    hide Bootstrap;
    assert peers[0] in Elems(peers);
  }

  lemma InitOneNode(s: Cluster, i: nat, peers: seq<nat>, payload: nat -> seq<byte>)
    requires Init(s, peers, payload) && i in s.nodes && SetupOk(s)
    ensures NodeOk(s, i)
  {
    var pv, cq, mx :| s.nodes[i] == Bootstrap(NewNode(i, pv, cq, mx), peers, payload);
    BootstrapShape(s, i, pv, cq, mx, peers, payload);
    InitNodeOk(s, i);
  }

  /** Every cluster that starts from Bootstrap with one peer list satisfies the invariant. */
  lemma InitInv(s: Cluster, peers: seq<nat>, payload: nat -> seq<byte>)
    requires Init(s, peers, payload)
    ensures Inv(s)
  {
    InitSetup(s, peers, payload);
    forall i | i in s.nodes ensures NodeOk(s, i) {
      InitOneNode(s, i, peers, payload);
    }
  }

  // ---------------------------------------------------------------------
  // Runs.

  lemma OneStep(s: Cluster, s': Cluster)
    requires Inv(s) && Steps(s, s')
    ensures Inv(s') && Evolves(s, s')
  {
    var e :| Next(s, e, s');
    NextKeeps(s, e, s');
  }

  lemma {:induction false} StepsKeepInv(trace: seq<Cluster>, k: nat)
    requires StepsAlong(trace) && k < |trace| && Inv(trace[0])
    ensures Inv(trace[k])
  {
    if k > 0 {
      StepsKeepInv(trace, k - 1);
      assert StepAt(trace, k - 1);
      OneStep(trace[k - 1], trace[k]);
    }
  }

  lemma {:induction false} StepsEvolve(trace: seq<Cluster>, j: nat, k: nat)
    requires StepsAlong(trace) && j <= k < |trace| && Inv(trace[0])
    ensures Evolves(trace[j], trace[k])
  {
    hide Evolves, FreshAck, Grows, Next, Shape;
    if j == k {
      EvolvesNot(trace[j]);
    } else {
      StepsEvolve(trace, j, k - 1);
      StepsKeepInv(trace, k - 1);
      assert StepAt(trace, k - 1);
      OneStep(trace[k - 1], trace[k]);
      EvolvesTrans(trace[j], trace[k - 1], trace[k]);
    }
  }

  /** The invariant holds at every moment of every run. */
  lemma RunInv(trace: seq<Cluster>, peers: seq<nat>, payload: nat -> seq<byte>, k: nat)
    requires IsRun(trace, peers, payload) && k < |trace|
    ensures Inv(trace[k])
  {
    InitInv(trace[0], peers, payload);
    StepsKeepInv(trace, k);
  }

  /** Messages, elections and terms only grow, and no acknowledgement of an old term is new. */
  lemma RunEvolves(trace: seq<Cluster>, peers: seq<nat>, payload: nat -> seq<byte>, j: nat, k: nat)
    requires IsRun(trace, peers, payload) && j <= k < |trace|
    ensures Evolves(trace[j], trace[k])
  {
    InitInv(trace[0], peers, payload);
    StepsEvolve(trace, j, k);
  }

  ghost predicate IsLeader(s: Cluster, i: nat) {
    i in s.nodes && s.nodes[i].role == StateLeader
  }

  ghost predicate Leads(s: Cluster, i: nat, t: nat) {
    i in s.nodes && s.nodes[i].role == StateLeader && s.nodes[i].term == t
  }

  lemma LeaderIsElected(s: Cluster, i: nat, t: nat)
    requires Inv(s) && Leads(s, i, t)
    ensures t in s.elected && s.elected[t] == Election(i, s.nodes[i].log)
  {
    assert NodeOk(s, i);
  }

  // ---------------------------------------------------------------------
  // Election safety.

  /** No two nodes lead one term, at any two moments of a run. */
  lemma ElectionSafety(trace: seq<Cluster>, peers: seq<nat>, payload: nat -> seq<byte>,
                       j: nat, k: nat, a: nat, b: nat, t: nat)
    requires IsRun(trace, peers, payload) && j <= k < |trace|
    requires Leads(trace[j], a, t) && Leads(trace[k], b, t)
    ensures a == b
  {
    RunInv(trace, peers, payload, j);
    RunInv(trace, peers, payload, k);
    LeaderIsElected(trace[j], a, t);
    LeaderIsElected(trace[k], b, t);
    RunEvolves(trace, peers, payload, j, k);
  }

  /** A node that knows a leader of its term knows the one that leads that term at any moment. */
  lemma KnownLeaderLeads(trace: seq<Cluster>, peers: seq<nat>, payload: nat -> seq<byte>,
                         j: nat, k: nat, i: nat, l: nat)
    requires IsRun(trace, peers, payload) && j < |trace| && k < |trace| && i in trace[j].nodes
    requires Leads(trace[k], l, trace[j].nodes[i].term) && trace[j].nodes[i].lead != NONE
    ensures trace[j].nodes[i].lead == l
  {
    RunInv(trace, peers, payload, j);
    RunInv(trace, peers, payload, k);
    assert NodeOk(trace[j], i);
    LeaderIsElected(trace[k], l, trace[j].nodes[i].term);
    if j <= k {
      RunEvolves(trace, peers, payload, j, k);
    } else {
      RunEvolves(trace, peers, payload, k, j);
    }
  }

  // ---------------------------------------------------------------------
  // Log matching.

  /** Entries with the same index and term have the same history, in any two logs of a run. */
  lemma LogMatching(trace: seq<Cluster>, peers: seq<nat>, payload: nat -> seq<byte>,
                    j: nat, k: nat, a: nat, b: nat, i: nat)
    requires IsRun(trace, peers, payload) && j <= k < |trace|
    requires a in trace[j].nodes && b in trace[k].nodes
    requires 1 <= i <= |trace[j].nodes[a].log| && i <= |trace[k].nodes[b].log|
    requires trace[j].nodes[a].log[i - 1].term == trace[k].nodes[b].log[i - 1].term
    ensures trace[j].nodes[a].log[..i] == trace[k].nodes[b].log[..i]
  {
    RunInv(trace, peers, payload, j);
    RunInv(trace, peers, payload, k);
    RunEvolves(trace, peers, payload, j, k);
    assert NodeOk(trace[j], a) && NodeOk(trace[k], b);
    TracedGrows(trace[j], trace[k], trace[j].nodes[a].log);
    LogsMatch(trace[k], trace[j].nodes[a].log, trace[k].nodes[b].log, i);
  }

  /** Terms along a log never decrease and never exceed the node's term; indices are positions. */
  lemma LogTermsOrdered(trace: seq<Cluster>, peers: seq<nat>, payload: nat -> seq<byte>, k: nat, a: nat, p: nat, q: nat)
    requires IsRun(trace, peers, payload) && k < |trace| && a in trace[k].nodes
    requires p <= q < |trace[k].nodes[a].log|
    ensures var n := trace[k].nodes[a];
            n.log[p].term <= n.log[q].term <= n.term && n.log[p].index == p + 1
  {
    RunInv(trace, peers, payload, k);
    assert NodeOk(trace[k], a);
    assert TermLe(trace[k].nodes[a].log, p, q);
  }

  // ---------------------------------------------------------------------
  // Replication bookkeeping.

  /** A recorded match is true of every follower still in the leader's term. */
  lemma MatchIsTruthful(trace: seq<Cluster>, peers: seq<nat>, payload: nat -> seq<byte>, k: nat, l: nat, v: nat)
    requires IsRun(trace, peers, payload) && k < |trace|
    requires IsLeader(trace[k], l) && v in trace[k].nodes[l].tracked.trk
    ensures var n := trace[k].nodes[l];
            var p := n.tracked.trk[v];
            && p.matched < p.next <= |n.log| + 1
            && v in trace[k].nodes
            && (trace[k].nodes[v].term == n.term ==> Holds(trace[k].nodes[v].log, n.log, p.matched))
  {
    var s := trace[k];
    RunInv(trace, peers, payload, k);
    assert NodeOk(s, l);
    var n := s.nodes[l];
    assert ProgressOk(s, n, v);
    var m := n.tracked.trk[v].matched;
    if v != l && m > 0 {
      var x :| x in s.net && AckOf(x, v, n.term, m);
      assert MsgOk(s, x);
      if s.nodes[v].term == n.term {
        assert s.nodes[v].log[..x.index][..m] == s.nodes[v].log[..m];
        assert n.log[..x.index][..m] == n.log[..m];
      }
    }
  }

  // ---------------------------------------------------------------------
  // Leader completeness.

  /** The leader has recorded index `i` for every member of `q`. */
  ghost predicate MatchedBy(n: NodeState, q: set<nat>, i: nat) {
    forall v :: v in q ==> v in n.tracked.trk && n.tracked.trk[v].matched >= i
  }

  lemma CampEntriesAreOld(log: seq<Entry>, camp: seq<Entry>, t: nat, i: nat)
    requires GrownFrom(log, camp, t) && t >= 1 && TermsWithin(camp, t - 1)
    requires 1 <= i <= |log| && log[i - 1].term == t
    ensures i > |camp|
  {
    assert forall k :: 0 <= k < |camp| ==> log[k] == camp[k];
  }

  lemma MatchMeansAck(s: Cluster, l: nat, v: nat, i: nat)
    requires Inv(s) && IsLeader(s, l) && v in s.nodes[l].tracked.trk
    requires 1 <= i <= s.nodes[l].tracked.trk[v].matched && i <= |s.nodes[l].log|
    requires s.nodes[l].log[i - 1].term == s.nodes[l].term
    ensures Acked(s, v, s.nodes[l].term, i)
  {
    assert NodeOk(s, l);
    var n := s.nodes[l];
    assert ProgressOk(s, n, v);
    var m := n.tracked.trk[v].matched;
    assert ElectionLog(s, n.term);
    var camp := Camp(n.term, l);
    assert CampOk(s, camp);
    CampEntriesAreOld(n.log, s.camps[camp], n.term, i);
    var x :| x in s.net && AckOf(x, v, n.term, m);
    assert AckOf(x, v, n.term, i);
  }

  lemma QuorumIsChosen(s: Cluster, l: nat, q: set<nat>, i: nat)
    requires Inv(s) && IsLeader(s, l) && IsQuorum(q, s.peers) && MatchedBy(s.nodes[l], q, i)
    requires 1 <= i <= |s.nodes[l].log| && s.nodes[l].log[i - 1].term == s.nodes[l].term
    ensures ChosenBy(s, q, s.nodes[l].term, i)
    ensures forall v :: v in q ==> Acked(s, v, s.nodes[l].term, i)
  {
    forall v | v in q ensures Acked(s, v, s.nodes[l].term, i) && MayAck(s, v, s.nodes[l].term, i) {
      MatchMeansAck(s, l, v, i);
    }
  }

  /** A node whose term has moved on gives no more acknowledgements in the old one. */
  lemma AckWasThere(s: Cluster, s': Cluster, v: nat, t: nat, i: nat)
    requires Evolves(s, s') && Acked(s', v, t, i) && i >= 1
    requires v in s.nodes && s.nodes[v].term > t
    ensures Acked(s, v, t, i)
  {
    var m :| m in s'.net && AckOf(m, v, t, i);
    assert FreshAck(s, m);
  }

  /** The entry was already chosen when a later leader had been elected. */
  lemma ChosenBefore(s: Cluster, s': Cluster, q: set<nat>, t: nat, i: nat)
    requires Evolves(s, s') && i >= 1 && IsQuorum(q, s.peers) && q <= s.nodes.Keys
    requires forall v :: v in q ==> Acked(s', v, t, i)
    ensures ChosenBy(s, q, t, i)
  {
    forall v | v in q ensures MayAck(s, v, t, i) {
      if s.nodes[v].term > t {
        AckWasThere(s, s', v, t, i);
      }
    }
  }

  lemma ChosenAfter(s: Cluster, s': Cluster, q: set<nat>, t: nat, i: nat)
    requires Grows(s, s') && IsQuorum(q, s.peers) && q <= s.nodes.Keys
    requires forall v :: v in q ==> Acked(s, v, t, i)
    ensures ChosenBy(s', q, t, i)
  {
    forall v | v in q ensures MayAck(s', v, t, i) {
      AckedGrows(s, s', v, t, i);
    }
  }

  /** Some voter of a later leader had acknowledged the entry before that election. */
  lemma EntryExisted(s: Cluster, s': Cluster, q: set<nat>, t: nat, i: nat, t': nat)
    requires Inv(s) && Evolves(s, s') && i >= 1 && IsQuorum(q, s.peers) && t < t' && t' in s.elected
    requires forall v :: v in q ==> Acked(s', v, t, i)
    ensures t in s.elected && i <= |s.elected[t].log|
  {
    assert ElectionWon(s, t');
    var q' :| WonBy(s, q', s.elected[t'].leader, t');
    var v := QuorumsMeet(q, q', s.peers);
    assert Granted(s, v, s.elected[t'].leader, t');
    GrantBindsTerm(s, v, s.elected[t'].leader, t');
    AckWasThere(s, s', v, t, i);
    OldAckInRange(s, v, t, i);
  }

  /** In the state where both elections are known, the later leader holds the entry. */
  lemma LaterLeaderHolds(s: Cluster, q: set<nat>, t: nat, i: nat, t': nat)
    requires Inv(s) && ChosenBy(s, q, t, i) && t < t' && t' in s.elected
    requires t in s.elected && 1 <= i <= |s.elected[t].log| && s.elected[t].log[i - 1].term == t
    ensures Holds(s.elected[t'].log, s.elected[t].log, i)
  {
    assert LeaderHolds(s, t, i, t');
  }

  lemma EarlierCommits(s: Cluster, s': Cluster, l: nat, q: set<nat>, i: nat, l': nat, t': nat)
    requires Inv(s) && Inv(s') && Evolves(s, s') && IsLeader(s, l)
    requires IsQuorum(q, s.peers) && MatchedBy(s.nodes[l], q, i)
    requires 1 <= i <= |s.nodes[l].log| && s.nodes[l].log[i - 1].term == s.nodes[l].term
    requires Leads(s', l', t') && t' > s.nodes[l].term
    ensures Holds(s'.nodes[l'].log, s.nodes[l].log, i)
  {
    hide AckOf, Acked;
    var t, log := s.nodes[l].term, s.nodes[l].log;
    LeaderIsElected(s, l, t);
    LeaderIsElected(s', l', t');
    QuorumIsChosen(s, l, q, i);
    ChosenAfter(s, s', q, t, i);
    assert s'.elected[t].log[..i] == log[..i];
    assert s'.elected[t].log[..i][i - 1] == log[..i][i - 1];
    LaterLeaderHolds(s', q, t, i, t');
  }

  /** The leader of the earlier term completes its quorum only after the later election. */
  lemma LaterCommits(s: Cluster, s': Cluster, l: nat, q: set<nat>, i: nat, l': nat, t': nat)
    requires Inv(s) && Inv(s') && Evolves(s', s) && IsLeader(s, l)
    requires IsQuorum(q, s.peers) && MatchedBy(s.nodes[l], q, i)
    requires 1 <= i <= |s.nodes[l].log| && s.nodes[l].log[i - 1].term == s.nodes[l].term
    requires Leads(s', l', t') && t' > s.nodes[l].term
    ensures Holds(s'.nodes[l'].log, s.nodes[l].log, i)
  {
    hide AckOf, Acked;
    var t, log := s.nodes[l].term, s.nodes[l].log;
    LeaderIsElected(s, l, t);
    LeaderIsElected(s', l', t');
    QuorumIsChosen(s, l, q, i);
    ChosenBefore(s', s, q, t, i);
    EntryExisted(s', s, q, t, i, t');
    assert s'.elected[t].log[..i] == log[..i];
    assert s'.elected[t].log[..i][i - 1] == log[..i][i - 1];
    LaterLeaderHolds(s', q, t, i, t');
  }

  /**
   * Leader completeness. If at moment `j` the leader of a term has recorded, for a majority of the
   * voters, an index whose entry is of its own term, then every node that leads a later term, at any
   * moment `k` of the run, holds that entry and everything before it.
   */
  lemma LeaderCompleteness(trace: seq<Cluster>, peers: seq<nat>, payload: nat -> seq<byte>,
                           j: nat, k: nat, l: nat, q: set<nat>, i: nat, l': nat, t': nat)
    requires IsRun(trace, peers, payload) && j < |trace| && k < |trace|
    requires IsLeader(trace[j], l)
    requires IsQuorum(q, trace[j].peers) && MatchedBy(trace[j].nodes[l], q, i)
    requires 1 <= i <= |trace[j].nodes[l].log| && trace[j].nodes[l].log[i - 1].term == trace[j].nodes[l].term
    requires Leads(trace[k], l', t') && t' > trace[j].nodes[l].term
    ensures Holds(trace[k].nodes[l'].log, trace[j].nodes[l].log, i)
  {
    RunInv(trace, peers, payload, j);
    RunInv(trace, peers, payload, k);
    if j <= k {
      RunEvolves(trace, peers, payload, j, k);
      EarlierCommits(trace[j], trace[k], l, q, i, l', t');
    } else {
      RunEvolves(trace, peers, payload, k, j);
      LaterCommits(trace[j], trace[k], l, q, i, l', t');
    }
  }

  // ---------------------------------------------------------------------
  // Panics, the commit index and configuration changes.

  /** No node ever panics, and no commit index ever leaves the bootstrap entries. */
  lemma NeverPanics(trace: seq<Cluster>, peers: seq<nat>, payload: nat -> seq<byte>, k: nat, i: nat)
    requires IsRun(trace, peers, payload) && k < |trace| && i in trace[k].nodes
    ensures var n := trace[k].nodes[i];
            && !n.fault
            && n.committed == |peers| <= |n.log| && n.log[..n.committed] == BootEntries(peers, payload)
            && n.tracked.cfg.voters == JointConfig(Elems(peers), {}) && n.tracked.trk.Keys == Elems(peers)
  {
    RunInv(trace, peers, payload, k);
    RunEvolves(trace, peers, payload, 0, k);
    BootIsKept(trace[k], i);
  }

  lemma BootIsKept(s: Cluster, i: nat)
    requires Inv(s) && i in s.nodes
    ensures var n := s.nodes[i];
            && !n.fault && n.committed == |s.boot| <= |n.log| && n.log[..n.committed] == s.boot
            && n.tracked.cfg.voters == JointConfig(s.peers, {}) && n.tracked.trk.Keys == s.peers
  {
    assert NodeOk(s, i);
  }

  /** What may be stepped into node `i`: a message from the network, a tick or any proposal of a client. */
  ghost predicate MayStep(s: Cluster, i: nat, m: Message) {
    || (m in s.net && m.to == i)
    || m == Msg(MsgHup, 0).(from := i)
    || m == Msg(MsgBeat, 0).(from := i)
    || m == Msg(MsgProp, 0).(from := i, entries := m.entries)
  }

  ghost function StepEvent(s: Cluster, i: nat, m: Message): Event {
    if m in s.net && m.to == i then Deliver(m)
    else if m.mtype == MsgHup then Timeout(i)
    else if m.mtype == MsgBeat then Beat(i)
    else Propose(i, m.entries)
  }

  /** A leader panics at a proposal without entries, or with a configuration change that does not decode. */
  ghost predicate Panics(n: NodeState, m: Message) {
    n.role == StateLeader && m.mtype == MsgProp && !Proposable(m.entries)
  }

  lemma SoundStep(s: Cluster, i: nat, m: Message)
    requires Inv(s) && i in s.nodes && MayStep(s, i, m) && (m.mtype == MsgProp ==> Proposable(m.entries))
    ensures !Step(s.nodes[i], m).fault
  {
    var e := StepEvent(s, i, m);
    var s' := Update(s, i, Step(s.nodes[i], m));
    assert Next(s, e, s');
    NextKeeps(s, e, s');
    assert NodeOk(s', i);
  }

  lemma UnsoundProposal(n: NodeState, m: Message)
    requires m.mtype == MsgProp && m.term == 0 && !Proposable(m.entries) && n.id in n.tracked.trk && !n.fault
    requires n.role == StateFollower ==> n.lead != n.id
    ensures Step(n, m).fault <==> n.role == StateLeader
  {
    hide BcastAppend, AppendEntry, Screen, Decodes;
    if n.role == StateFollower {
      assert Step(n, m) == StepFollower(n, m);
    } else if n.role == StateLeader {
      assert Step(n, m) == HandleProposal(n, m);
    } else {
      assert Step(n, m) == StepCandidate(n, m);
    }
  }

  lemma UnsoundStep(s: Cluster, i: nat, m: Message)
    requires Inv(s) && i in s.nodes && MayStep(s, i, m) && m.mtype == MsgProp && !Proposable(m.entries)
    ensures Step(s.nodes[i], m).fault <==> s.nodes[i].role == StateLeader
  {
    hide Step, Proposable, ElectionLogs, CampsOk, OneVote, Complete;
    assert NodeOk(s, i);
    assert m in s.net ==> MsgOk(s, m);
    assert s.nodes[i].lead != NONE ==> ElectionWon(s, s.nodes[i].term);
    UnsoundProposal(s.nodes[i], m);
  }

  /** Exactly when the next step of a node of a run panics: the precondition of Raft.Step. */
  lemma StepPanicsExactly(trace: seq<Cluster>, peers: seq<nat>, payload: nat -> seq<byte>, k: nat, i: nat, m: Message)
    requires IsRun(trace, peers, payload) && k < |trace| && i in trace[k].nodes && MayStep(trace[k], i, m)
    ensures Step(trace[k].nodes[i], m).fault <==> Panics(trace[k].nodes[i], m)
  {
    RunInv(trace, peers, payload, k);
    if m.mtype == MsgProp && !Proposable(m.entries) {
      UnsoundStep(trace[k], i, m);
    } else {
      SoundStep(trace[k], i, m);
    }
  }

  /** The proposal that makes every leader panic: one byte of data that no ConfChange has. */
  lemma BadChangePanics(trace: seq<Cluster>, peers: seq<nat>, payload: nat -> seq<byte>, k: nat, l: nat)
    requires IsRun(trace, peers, payload) && k < |trace| && IsLeader(trace[k], l)
    ensures Step(trace[k].nodes[l], Msg(MsgProp, 0).(from := l, entries := [BAD_CHANGE])).fault
  {
    BadChangeFails();
    assert !Decodes([BAD_CHANGE][0]);
    StepPanicsExactly(trace, peers, payload, k, l, Msg(MsgProp, 0).(from := l, entries := [BAD_CHANGE]));
  }

  /** A configuration change enters a leader's log only when every earlier one has been applied. */
  lemma OnePendingChange(trace: seq<Cluster>, peers: seq<nat>, payload: nat -> seq<byte>,
                         k: nat, l: nat, m: Message, p: nat, e: nat)
    requires IsRun(trace, peers, payload) && k < |trace| && IsLeader(trace[k], l)
    requires m.mtype == MsgProp && Proposable(m.entries)
    requires var log := HandleProposal(trace[k].nodes[l], m).log;
             && |trace[k].nodes[l].log| <= p < |log| && IsConfChange(log[p])
             && e < p && IsConfChange(log[e])
    ensures e + 1 <= trace[k].nodes[l].applied
  {
    RunInv(trace, peers, payload, k);
    assert NodeOk(trace[k], l);
    var n := trace[k].nodes[l];
    ProposalShape(n, m);
    var (es, pending) := Screen(m.entries, n.pendingConfIndex, n.applied, |n.log|, Joint(n.tracked.cfg));
    var a := AppendEntry(n.(pendingConfIndex := pending), es);
    BcastKeepsLog(trace[k], l, n, a, es);
    ScreenedChange(n, m.entries, a, p, e);
  }

  /** The rule that the proposal loop enforces on the log it extends. */
  lemma ScreenedChange(n: NodeState, proposed: seq<Entry>, a: NodeState, p: nat, e: nat)
    requires PendingOk(n) && n.applied <= |n.log|
    requires ProposalStep(n, a, Screen(proposed, n.pendingConfIndex, n.applied, |n.log|, Joint(n.tracked.cfg)).0)
    requires |n.log| <= p < |a.log| && IsConfChange(a.log[p]) && e < p && IsConfChange(a.log[e])
    ensures e + 1 <= n.applied
  {
    ScreenKeepsPending(proposed, n.pendingConfIndex, n.applied, |n.log|, Joint(n.tracked.cfg));
    var es := Screen(proposed, n.pendingConfIndex, n.applied, |n.log|, Joint(n.tracked.cfg)).0;
    assert IsConfChange(es[p - |n.log|]);
    if e < |n.log| {
      assert a.log[e] == n.log[e];
    }
  }

  lemma BcastKeepsLog(s: Cluster, i: nat, n: NodeState, a: NodeState, es: seq<Entry>)
    requires Inv(s) && i in s.nodes && n == s.nodes[i] && n.role == StateLeader && ProposalStep(n, a, es)
    ensures BcastAppend(a).log == a.log
  {
    assert NodeOk(s, i);
    LeaderReachable(s, i, n);
    forall v | v in a.tracked.trk ensures PeerReachable(a, v) {
      assert PeerReachable(n, v);
    }
    AppendToAllSends(a, SortedIds(a.tracked.trk.Keys), true);
  }
}
