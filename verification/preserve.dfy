/** A node step that the local rule allows keeps the whole invariant. */
module Preserve {
  import opened RaftTypes
  import opened LogSpec
  import opened Quorum
  import opened Tracker
  import opened ConfChange
  import opened RaftSpec
  import opened Cluster
  import opened Invariant

  // ---------------------------------------------------------------------
  // Growth: what one step leaves in place.

  ghost predicate SameHistory(s: Cluster, s': Cluster) {
    && s'.peers == s.peers && s'.boot == s.boot && s'.nodes.Keys == s.nodes.Keys
    && s.net <= s'.net
    && s.elected.Keys <= s'.elected.Keys && s.camps.Keys <= s'.camps.Keys
  }

  ghost predicate Grows(s: Cluster, s': Cluster) {
    && SameHistory(s, s')
    && (forall i :: i in s.nodes ==> s.nodes[i].term <= s'.nodes[i].term)
    && (forall t :: t in s.elected ==>
          s'.elected[t].leader == s.elected[t].leader && s.elected[t].log <= s'.elected[t].log)
    && (forall c :: c in s.camps ==> s'.camps[c] == s.camps[c])
  }

  /** Two won elections of one term have the same winner. */
  lemma OneWinner(s: Cluster, q1: set<nat>, c1: nat, q2: set<nat>, c2: nat, t: nat)
    requires OneVote(s) && WonBy(s, q1, c1, t) && WonBy(s, q2, c2, t)
    ensures c1 == c2
  {
    var v := QuorumsMeet(q1, q2, s.peers);
    assert Granted(s, v, c1, t) && Granted(s, v, c2, t);
  }

  /** A term is won once: a winning candidate finds its term still open. */
  lemma TermIsOpen(s: Cluster, i: nat, q: set<nat>)
    requires OneVote(s) && ElectionsWon(s)
    requires i in s.nodes && s.nodes[i].role != StateLeader
    requires WonBy(s, q, i, s.nodes[i].term)
    ensures s.nodes[i].term !in s.elected
  {
    var t := s.nodes[i].term;
    if t in s.elected {
      assert ElectionWon(s, t);
      var q' :| WonBy(s, q', s.elected[t].leader, t);
      OneWinner(s, q', s.elected[t].leader, q, i, t);
    }
  }

  lemma CampIsNew(s: Cluster, i: nat, t: nat)
    requires CampsOk(s) && i in s.nodes && s.nodes[i].term < t
    ensures Camp(t, i) !in s.camps
  {
    assert Camp(t, i) in s.camps ==> CampOk(s, Camp(t, i));
  }

  lemma ElectedGrows(s: Cluster, i: nat, n2: NodeState)
    requires OneVote(s) && ElectionsWon(s) && i in s.nodes && NodeOk(s, i)
    requires n2.role == StateLeader && LeaderRule(s, s.nodes[i], n2)
    ensures n2.term in s.elected ==> s.elected[n2.term].leader == i && s.elected[n2.term].log <= n2.log
  {
    if s.nodes[i].role != StateLeader {
      var q :| WonBy(s, q, i, n2.term);
      TermIsOpen(s, i, q);
    }
  }

  lemma CampsGrow(s: Cluster, i: nat, n2: NodeState)
    requires CampsOk(s) && i in s.nodes && NodeOk(s, i)
    requires n2.role == StateCandidate && CandidateRule(s, s.nodes[i], n2)
    ensures Camp(n2.term, i) in s.camps ==> s.camps[Camp(n2.term, i)] == n2.log
  {
    if s.nodes[i].term < n2.term {
      CampIsNew(s, i, n2.term);
    }
  }

  lemma StepGrows(s: Cluster, i: nat, n2: NodeState)
    requires OneVote(s) && ElectionsWon(s) && CampsOk(s)
    requires i in s.nodes && NodeOk(s, i)
    requires s.nodes[i].term <= n2.term && RoleRule(s, s.nodes[i], n2)
    ensures Grows(s, Update(s, i, n2))
  {
    if n2.role == StateLeader {
      ElectedGrows(s, i, n2);
    }
    if n2.role == StateCandidate {
      CampsGrow(s, i, n2);
    }
  }

  lemma HoldsGrown(a: seq<Entry>, b: seq<Entry>, c: seq<Entry>, k: nat)
    requires Holds(a, b, k) && b <= c
    ensures Holds(a, c, k)
  {
    assert b[..k] == c[..k];
  }

  lemma TracedGrows(s: Cluster, s': Cluster, log: seq<Entry>)
    requires Grows(s, s') && Traced(s, log)
    ensures Traced(s', log)
  {
    forall k | |s'.boot| <= k < |log| ensures TracedAt(s', log, k) {
      assert TracedAt(s, log, k);
      HoldsGrown(log, s.elected[log[k].term].log, s'.elected[log[k].term].log, k + 1);
    }
  }

  lemma TracedPrefix(s: Cluster, log: seq<Entry>, p: seq<Entry>)
    requires Traced(s, log) && p <= log && s.boot <= p
    ensures Traced(s, p)
  {
    forall k | |s.boot| <= k < |p| ensures TracedAt(s, p, k) {
      assert TracedAt(s, log, k);
      assert p[..k + 1] == log[..k + 1];
    }
  }

  // ---------------------------------------------------------------------
  // Nodes.

  lemma AckedGrows(s: Cluster, s': Cluster, v: nat, t: nat, k: nat)
    requires Grows(s, s') && Acked(s, v, t, k)
    ensures Acked(s', v, t, k)
  {
    var m :| m in s.net && AckOf(m, v, t, k);
    assert m in s'.net;
  }

  lemma ProgressGrows(s: Cluster, s': Cluster, n: NodeState, v: nat)
    requires Grows(s, s') && v in n.tracked.trk && ProgressOk(s, n, v)
    ensures ProgressOk(s', n, v)
  {
    var k := n.tracked.trk[v].matched;
    if Acked(s, v, n.term, k) {
      AckedGrows(s, s', v, n.term, k);
    }
  }

  lemma VotesGrow(s: Cluster, s': Cluster, n: NodeState)
    requires Grows(s, s') && VotesBacked(s, n)
    ensures VotesBacked(s', n)
  {
    forall v | v in n.votes && n.votes[v] ensures Granted(s', v, n.id, n.term) {
      assert Granted(s, v, n.id, n.term);
    }
  }

  /** No other leader's entry is overwritten. */
  lemma OtherElectionKept(s: Cluster, i: nat, n2: NodeState, t: nat)
    requires OneVote(s) && ElectionsWon(s) && i in s.nodes && NodeOk(s, i)
    requires RoleRule(s, s.nodes[i], n2)
    requires t in s.elected && s.elected[t].leader != i
    ensures Update(s, i, n2).elected[t] == s.elected[t]
  {
    var n := s.nodes[i];
    if n2.role == StateLeader && n.role != StateLeader {
      var q :| WonBy(s, q, i, n2.term);
      TermIsOpen(s, i, q);
    }
  }

  lemma OtherNodeKept(s: Cluster, i: nat, n2: NodeState, j: nat)
    requires Shape(s) && i in s.nodes && Allowed(s, i, n2) && j in s.nodes && j != i
    ensures NodeOk(Update(s, i, n2), j)
  {
    hide CampOk, CandidateRule, Grows, SetupOk, Traced, VotesBacked;
    var s' := Update(s, i, n2);
    assert NodeOk(s, i) && NodeOk(s, j);
    StepGrows(s, i, n2);
    var n := s.nodes[j];
    TracedGrows(s, s', n.log);
    if n.role == StateLeader {
      OtherElectionKept(s, i, n2, n.term);
      forall v | v in n.tracked.trk ensures ProgressOk(s', n, v) {
        assert ProgressOk(s, n, v);
        ProgressGrows(s, s', n, v);
      }
    }
    if n.role == StateCandidate {
      VotesGrow(s, s', n);
    }
  }

  lemma TermsWithinPrefix(log: seq<Entry>, p: seq<Entry>, t: nat)
    requires p <= log && TermsWithin(log, t)
    ensures TermsWithin(p, t)
  {
    forall j: nat, k: nat | j <= k < |p| ensures TermLe(p, j, k) {
      assert TermLe(log, j, k);
    }
  }

  lemma TermsWithinGrow(log: seq<Entry>, more: seq<Entry>, t: nat)
    requires log <= more && TermsWithin(log, t)
    requires forall k :: |log| <= k < |more| ==> more[k].term == t
    ensures TermsWithin(more, t)
  {
    forall j: nat, k: nat | j <= k < |more| ensures TermLe(more, j, k) {
      if k < |log| {
        assert TermLe(log, j, k);
      }
    }
  }

  /** The new log of node `i` is a proper log of its new term. */
  lemma NewLogOk(s: Cluster, i: nat, n2: NodeState)
    requires Shape(s) && i in s.nodes && Allowed(s, i, n2)
    ensures var s' := Update(s, i, n2);
            Contiguous(n2.log, 1) && Traced(s', n2.log) && TermsWithin(n2.log, n2.term)
  {
    hide Grows, LeadOk, SetupOk, TrackedFixed;
    var s', n := Update(s, i, n2), s.nodes[i];
    assert NodeOk(s, i);
    StepGrows(s, i, n2);
    if n2.log == n.log {
      TracedGrows(s, s', n.log);
    } else if n2.role == StateLeader {
      TracedGrows(s, s', n.log);
      TermsWithinGrow(n.log, n2.log, n2.term);
      forall k | |s.boot| <= k < |n2.log| ensures TracedAt(s', n2.log, k) {
        if k < |n.log| {
          assert TracedAt(s', n.log, k);
          assert n2.log[..k + 1] == n.log[..k + 1];
        }
      }
    } else {
      var log := s.elected[n2.term].log;
      assert ElectionLog(s, n2.term);
      TracedPrefix(s, log, n2.log);
      TracedGrows(s, s', n2.log);
      TermsWithinPrefix(log, n2.log, n2.term);
    }
  }

  lemma NodeKept(s: Cluster, i: nat, n2: NodeState)
    requires Shape(s) && i in s.nodes && Allowed(s, i, n2)
    ensures NodeOk(Update(s, i, n2), i)
  {
    var s' := Update(s, i, n2);
    assert NodeOk(s, i);
    NewLogOk(s, i, n2);
    StepGrows(s, i, n2);
    var f := Flush(n2);
    if n2.role == StateLeader {
      forall v | v in f.tracked.trk ensures ProgressOk(s', f, v) {
        assert ProgressOk(s', n2, v);
      }
    }
    if n2.role == StateCandidate {
      VotesGrow(s, s', n2);
    }
  }

  // ---------------------------------------------------------------------
  // History.

  lemma CampKept(s: Cluster, i: nat, n2: NodeState, c: Camp)
    requires Shape(s) && i in s.nodes && Allowed(s, i, n2) && c in Update(s, i, n2).camps
    ensures CampOk(Update(s, i, n2), c)
  {
    var s', n := Update(s, i, n2), s.nodes[i];
    assert NodeOk(s, i);
    StepGrows(s, i, n2);
    if c in s.camps {
      assert CampOk(s, c);
      TracedGrows(s, s', s.camps[c]);
    } else {
      TracedGrows(s, s', n.log);
      assert n.term <= c.term - 1;
    }
  }

  lemma WonGrows(s: Cluster, s': Cluster, q: set<nat>, c: nat, t: nat)
    requires Grows(s, s') && WonBy(s, q, c, t)
    ensures WonBy(s', q, c, t)
  {
    forall v | v in q ensures Granted(s', v, c, t) {
      assert Granted(s, v, c, t);
    }
  }

  lemma ElectionWonKept(s: Cluster, i: nat, n2: NodeState, t: nat)
    requires Shape(s) && i in s.nodes && Allowed(s, i, n2) && t in Update(s, i, n2).elected
    ensures ElectionWon(Update(s, i, n2), t)
  {
    hide CampOk, Grows, IsQuorum, SetupOk;
    var s', n := Update(s, i, n2), s.nodes[i];
    assert NodeOk(s, i);
    StepGrows(s, i, n2);
    if t in s.elected {
      assert ElectionWon(s, t);
    }
    var c := s'.elected[t].leader;
    var q :| WonBy(s, q, c, t);
    WonGrows(s, s', q, c, t);
  }

  lemma ElectionLogKept(s: Cluster, i: nat, n2: NodeState, t: nat)
    requires Shape(s) && i in s.nodes && Allowed(s, i, n2) && t in Update(s, i, n2).elected
    ensures ElectionLog(Update(s, i, n2), t)
  {
    hide Accepts, Grows, LeadOk, SameHistory, SetupOk, TermsWithin;
    var s', n := Update(s, i, n2), s.nodes[i];
    assert NodeOk(s, i);
    StepGrows(s, i, n2);
    if n2.role == StateLeader && n2.term == t {
      NewLogOk(s, i, n2);
      if n.role == StateLeader {
        assert ElectionLog(s, t);
      }
    } else {
      assert ElectionLog(s, t);
      TracedGrows(s, s', s.elected[t].log);
    }
  }

  // ---------------------------------------------------------------------
  // Messages.

  /** What an acknowledgement of node `i` says about its log survives the step. */
  lemma SharedKept(s: Cluster, i: nat, n2: NodeState, t: nat, k: nat)
    requires Shape(s) && i in s.nodes && Allowed(s, i, n2)
    requires t in s.elected && s.nodes[i].term == t == n2.term
    requires Holds(s.nodes[i].log, s.elected[t].log, k)
    ensures Holds(n2.log, Update(s, i, n2).elected[t].log, k)
  {
    hide Grows, LeadOk, LeaderRule, NodeOk, OneVote, SetupOk;
    var s', n := Update(s, i, n2), s.nodes[i];
    assert NodeOk(s, i);
    StepGrows(s, i, n2);
    if n2.role == StateLeader || n2.log == n.log {
      assert n2.log[..k] == n.log[..k];
      HoldsGrown(n2.log, s.elected[t].log, s'.elected[t].log, k);
    } else {
      var log := s.elected[t].log;
      assert n2.log[..k] == log[..k];
      HoldsGrown(n2.log, log, s'.elected[t].log, k);
    }
  }

  lemma AppKept(s: Cluster, s': Cluster, m: Message)
    requires Grows(s, s') && AppOk(s, m)
    ensures AppOk(s', m)
  {
    var log, log' := s.elected[m.term].log, s'.elected[m.term].log;
    assert log'[m.index..m.index + |m.entries|] == log[m.index..m.index + |m.entries|];
  }

  lemma GrantKept(s: Cluster, i: nat, n2: NodeState, m: Message)
    requires SetupOk(s) && CampsOk(s) && i in s.nodes && Allowed(s, i, n2)
    requires Grows(s, Update(s, i, n2)) && GrantOk(s, m)
    ensures GrantOk(Update(s, i, n2), m)
  {
    assert CampOk(s, Camp(m.term, m.to));
  }

  lemma AckKept(s: Cluster, i: nat, n2: NodeState, m: Message)
    requires Shape(s) && i in s.nodes && Allowed(s, i, n2) && AckOk(s, m)
    ensures AckOk(Update(s, i, n2), m)
  {
    var s' := Update(s, i, n2);
    assert NodeOk(s, i);
    StepGrows(s, i, n2);
    if m.index > 0 && s'.nodes[m.from].term == m.term {
      if m.from == i {
        SharedKept(s, i, n2, m.term, m.index);
      } else {
        HoldsGrown(s.nodes[m.from].log, s.elected[m.term].log, s'.elected[m.term].log, m.index);
      }
    }
  }

  lemma OldMessageKept(s: Cluster, i: nat, n2: NodeState, m: Message)
    requires Shape(s) && i in s.nodes && Allowed(s, i, n2) && m in s.net
    ensures MsgOk(Update(s, i, n2), m)
  {
    assert NodeOk(s, i) && MsgOk(s, m);
    StepGrows(s, i, n2);
    if m.mtype == MsgApp {
      AppKept(s, Update(s, i, n2), m);
    } else if m.mtype == MsgVoteResp && !m.reject {
      GrantKept(s, i, n2, m);
    } else if IsAck(m) {
      AckKept(s, i, n2, m);
    }
  }

  lemma NewMessageOk(s: Cluster, i: nat, n2: NodeState, m: Message)
    requires Shape(s) && i in s.nodes && Allowed(s, i, n2) && m in Out(n2) && m !in s.net
    ensures MsgOk(Update(s, i, n2), m)
  {
    var s' := Update(s, i, n2);
    assert NodeOk(s, i);
    StepGrows(s, i, n2);
    assert NewMsg(s, s', s.nodes[i], n2, m);
  }

  lemma OneVoteKept(s: Cluster, i: nat, n2: NodeState)
    requires Shape(s) && i in s.nodes && Allowed(s, i, n2)
    ensures OneVote(Update(s, i, n2))
  {
    var s', n := Update(s, i, n2), s.nodes[i];
    forall v: nat, c1: nat, c2: nat, t: nat | Granted(s', v, c1, t) && Granted(s', v, c2, t)
      ensures c1 == c2
    {
      GrantNamesVote(s, i, n2, v, c1, t);
      GrantNamesVote(s, i, n2, v, c2, t);
    }
  }

  /** A grant is an old one, or it names the vote that node `i` now holds. */
  lemma GrantNamesVote(s: Cluster, i: nat, n2: NodeState, v: nat, c: nat, t: nat)
    requires Shape(s) && i in s.nodes && Allowed(s, i, n2)
    requires Granted(Update(s, i, n2), v, c, t)
    ensures Granted(s, v, c, t) || (v == i && t == n2.term && c == n2.vote)
    ensures v == i && t == n2.term ==> c == n2.vote
  {
    var m := GrantMsg(v, c, t);
    var s' := Update(s, i, n2);
    assert NodeOk(s, i);
    if m in s.net {
      assert MsgOk(s, m) && CampOk(s, Camp(t, c));
    } else {
      assert NewMsg(s, s', s.nodes[i], n2, m);
    }
  }

  lemma NodesKept(s: Cluster, i: nat, n2: NodeState)
    requires Shape(s) && i in s.nodes && Allowed(s, i, n2)
    ensures NodesOk(Update(s, i, n2))
  {
    forall j | j in Update(s, i, n2).nodes ensures NodeOk(Update(s, i, n2), j) {
      if j == i {
        NodeKept(s, i, n2);
      } else {
        OtherNodeKept(s, i, n2, j);
      }
    }
  }

  lemma HistoryKept(s: Cluster, i: nat, n2: NodeState)
    requires Shape(s) && i in s.nodes && Allowed(s, i, n2)
    ensures var s' := Update(s, i, n2); CampsOk(s') && ElectionsWon(s') && ElectionLogs(s')
  {
    var s' := Update(s, i, n2);
    forall c | c in s'.camps ensures CampOk(s', c) {
      CampKept(s, i, n2, c);
    }
    forall t | t in s'.elected ensures ElectionWon(s', t) {
      ElectionWonKept(s, i, n2, t);
    }
    forall t | t in s'.elected ensures ElectionLog(s', t) {
      ElectionLogKept(s, i, n2, t);
    }
  }

  lemma NetKept(s: Cluster, i: nat, n2: NodeState)
    requires Shape(s) && i in s.nodes && Allowed(s, i, n2)
    ensures NetOk(Update(s, i, n2))
  {
    forall m | m in Update(s, i, n2).net ensures MsgOk(Update(s, i, n2), m) {
      if m in s.net {
        OldMessageKept(s, i, n2, m);
      } else {
        NewMessageOk(s, i, n2, m);
      }
    }
  }

  lemma ShapeKept(s: Cluster, i: nat, n2: NodeState)
    requires Shape(s) && i in s.nodes && Allowed(s, i, n2)
    ensures Shape(Update(s, i, n2))
  {
    NodesKept(s, i, n2);
    HistoryKept(s, i, n2);
    NetKept(s, i, n2);
    OneVoteKept(s, i, n2);
    assert SetupOk(Update(s, i, n2));
  }
}
