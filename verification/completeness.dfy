/** Leader completeness is inductive: the part of the invariant about acknowledged entries. */
module Completeness {
  import opened RaftTypes
  import opened LogSpec
  import opened Quorum
  import opened Tracker
  import opened ConfChange
  import opened RaftSpec
  import opened Cluster
  import opened Invariant
  import opened Preserve

  /** A log at least as up to date as one that holds a protected entry holds it as well. */
  lemma UpToDateHolds(s: Cluster, ours: seq<Entry>, camp: Camp, t: nat, k: nat)
    requires SetupOk(s) && ElectionLogs(s) && CampsOk(s) && LeadersComplete(s)
    requires camp in s.camps && t < camp.term
    requires Protected(s, t, k) && Holds(ours, s.elected[t].log, k)
    requires TermsSorted(ours)
    requires UpToDate(ours, |s.camps[camp]|, LastTerm(s.camps[camp]))
    ensures Holds(s.camps[camp], s.elected[t].log, k)
  {
    var theirs := s.camps[camp];
    assert CampOk(s, camp);
    assert ours[..k][k - 1] == s.elected[t].log[..k][k - 1];
    assert TermLe(ours, k - 1, |ours| - 1);
    ElectionTermsAreLate(s, t);
    var j := |theirs| - 1;
    assert theirs[j].term >= t >= 2;
    BootTermsAreOne(s, theirs);
    assert TracedAt(s, theirs, j);
    var t'' := theirs[j].term;
    assert theirs[..j + 1] == theirs;
    if t'' == t {
      assert theirs[..k] == s.elected[t].log[..j + 1][..k];
    } else {
      assert LeaderHolds(s, t, k, t'');
      var log := s.elected[t''].log;
      assert log[..j + 1][j] == theirs[j] && log[..k][k - 1] == s.elected[t].log[..k][k - 1];
      assert ElectionLog(s, t'');
      LaterTermLaterIndex(log, j, k - 1);
      assert theirs[..k] == log[..j + 1][..k];
    }
  }

  lemma BootTermsAreOne(s: Cluster, log: seq<Entry>)
    requires SetupOk(s) && s.boot <= log
    ensures forall j :: 0 <= j < |s.boot| ==> log[j].term == 1
  {
    assert forall j :: 0 <= j < |s.boot| ==> log[j] == s.boot[j];
  }

  lemma LaterTermLaterIndex(log: seq<Entry>, j: nat, k: nat)
    requires TermsSorted(log) && j < |log| && k < |log| && log[j].term > log[k].term
    ensures j > k
  {
    assert j <= k ==> TermLe(log, j, k);
  }

  lemma ElectionTermsAreLate(s: Cluster, t: nat)
    requires SetupOk(s) && ElectionLogs(s) && CampsOk(s)
    requires t in s.elected
    ensures t >= 2
  {
    assert ElectionLog(s, t);
    assert CampOk(s, Camp(t, s.elected[t].leader));
  }

  // ---------------------------------------------------------------------
  // What is protected after a step was protected before it, or is brand new.

  /** An acknowledgement is an old one, or node `i` just gave it in its current term. */
  lemma AckIsOldOrOwn(s: Cluster, i: nat, n2: NodeState, v: nat, t: nat, k: nat)
    requires Shape(s) && i in s.nodes && Allowed(s, i, n2)
    requires k >= 1 && Acked(Update(s, i, n2), v, t, k)
    ensures Acked(s, v, t, k) ||
            (v == i && t == n2.term && t in Update(s, i, n2).elected
             && Holds(n2.log, Update(s, i, n2).elected[t].log, k))
  {
    var s' := Update(s, i, n2);
    var m :| m in s'.net && AckOf(m, v, t, k);
    if m in s.net {
      assert AckOf(m, v, t, k);
    } else {
      assert NodeOk(s, i);
      assert NewMsg(s, s', s.nodes[i], n2, m);
      assert n2.log[..m.index][..k] == n2.log[..k];
      assert s'.elected[t].log[..m.index][..k] == s'.elected[t].log[..k];
    }
  }

  lemma OldAckInRange(s: Cluster, v: nat, t: nat, k: nat)
    requires Shape(s) && k >= 1 && Acked(s, v, t, k)
    ensures v in s.nodes && t in s.elected && k <= |s.elected[t].log| && s.nodes[v].term >= t
  {
    var m :| m in s.net && AckOf(m, v, t, k);
    assert MsgOk(s, m);
  }

  lemma ChosenEarlier(s: Cluster, i: nat, n2: NodeState, q: set<nat>, t: nat, k: nat)
    requires Shape(s) && i in s.nodes && Allowed(s, i, n2)
    requires k >= 1 && ChosenBy(Update(s, i, n2), q, t, k)
    ensures ChosenBy(s, q, t, k)
  {
    var s' := Update(s, i, n2);
    forall v | v in q ensures MayAck(s, v, t, k) {
      assert MayAck(s', v, t, k);
      if Acked(s', v, t, k) {
        AckIsOldOrOwn(s, i, n2, v, t, k);
      }
    }
  }

  /** The entry existed before the step. */
  ghost predicate Existed(s: Cluster, t: nat, k: nat) {
    t in s.elected && k <= |s.elected[t].log|
  }

  lemma ProtectedEarlier(s: Cluster, i: nat, n2: NodeState, t: nat, k: nat)
    requires Shape(s) && i in s.nodes && Allowed(s, i, n2)
    requires Protected(Update(s, i, n2), t, k) && Existed(s, t, k)
    ensures Protected(s, t, k)
    ensures Holds(Update(s, i, n2).elected[t].log, s.elected[t].log, k)
  {
    hide Accepts, ElectionsWon, Grows, IsQuorum, LeaderRule, NodeOk, OneVote, SetupOk;
    var s' := Update(s, i, n2);
    assert NodeOk(s, i);
    StepGrows(s, i, n2);
    assert s'.elected[t].log[..k] == s.elected[t].log[..k];
    assert s'.elected[t].log[..k][k - 1] == s.elected[t].log[..k][k - 1];
    var q :| ChosenBy(s', q, t, k);
    ChosenEarlier(s, i, n2, q, t, k);
  }

  /** A grant for a later term keeps its voter from acknowledging in an earlier one. */
  lemma GrantBindsTerm(s: Cluster, v: nat, c: nat, t: nat)
    requires NetOk(s) && Granted(s, v, c, t)
    ensures v in s.nodes && s.nodes[v].term >= t
  {
    assert MsgOk(s, GrantMsg(v, c, t));
  }

  /** Later leaders' voters cannot have acknowledged an entry that did not exist. */
  lemma FreshIsUnprotected(s: Cluster, i: nat, n2: NodeState, t: nat, k: nat, t': nat)
    requires Shape(s) && i in s.nodes && Allowed(s, i, n2)
    requires Protected(Update(s, i, n2), t, k) && !Existed(s, t, k)
    ensures t < t' ==> t' !in Update(s, i, n2).elected
  {
    hide Accepts, CampOk, Grows, IsQuorum, SetupOk, Traced;
    var s' := Update(s, i, n2);
    assert NodeOk(s, i);
    StepGrows(s, i, n2);
    if t < t' && t' in s'.elected {
      assert ElectionWon(s, t');
      var q' :| WonBy(s, q', s.elected[t'].leader, t');
      var q :| ChosenBy(s', q, t, k);
      var v := QuorumsMeet(q, q', s.peers);
      assert MayAck(s', v, t, k) && Granted(s, v, s.elected[t'].leader, t');
      FreshVoter(s, i, n2, t, k, v, s.elected[t'].leader, t');
    }
  }

  lemma FreshVoter(s: Cluster, i: nat, n2: NodeState, t: nat, k: nat, v: nat, c: nat, t': nat)
    requires Shape(s) && i in s.nodes && Allowed(s, i, n2) && t < t' && v in s.nodes
    requires k >= 1 && !Existed(s, t, k) && Granted(s, v, c, t')
    ensures !MayAck(Update(s, i, n2), v, t, k)
  {
    if MayAck(Update(s, i, n2), v, t, k) {
      GrantBindsTerm(s, v, c, t');
      AckIsOldOrOwn(s, i, n2, v, t, k);
      OldAckInRange(s, v, t, k);
    }
  }

  // ---------------------------------------------------------------------
  // The three parts.

  /** A new leader's voters include one that acknowledged, so its campaign log holds the entry. */
  lemma WinnerHolds(s: Cluster, i: nat, t: nat, k: nat, t': nat, q': set<nat>)
    requires Inv(s) && i in s.nodes && t < t' && Protected(s, t, k) && WonBy(s, q', i, t')
    ensures Camp(t', i) in s.camps && Holds(s.camps[Camp(t', i)], s.elected[t].log, k)
  {
    var q :| ChosenBy(s, q, t, k);
    var v := QuorumsMeet(q, q', s.peers);
    assert MayAck(s, v, t, k) && Granted(s, v, i, t');
    GrantBindsTerm(s, v, i, t');
    assert GrantCarries(s, t, k, v, Camp(t', i));
  }

  /** The leader of `t'` held the protected entry before, or won its election in this step. */
  lemma LeaderHoldsOld(s: Cluster, i: nat, n2: NodeState, t: nat, k: nat, t': nat)
    requires Inv(s) && i in s.nodes && Allowed(s, i, n2)
    requires t < t' && t' in Update(s, i, n2).elected && Protected(s, t, k)
    ensures Holds(Update(s, i, n2).elected[t'].log, s.elected[t].log, k)
  {
    hide CampsOk, Grows, LeadOk, LeaderRule, NewMsg, NodeOk, Protected, TrackedFixed, Update;
    if t' in s.elected {
      StepGrows(s, i, n2);
      assert LeaderHolds(s, t, k, t');
      assert Update(s, i, n2).elected[t'].log[..k] == s.elected[t'].log[..k];
    } else {
      NewLeaderHolds(s, i, n2, t, k, t');
    }
  }

  lemma NewLeaderHolds(s: Cluster, i: nat, n2: NodeState, t: nat, k: nat, t': nat)
    requires Inv(s) && i in s.nodes && Allowed(s, i, n2)
    requires t < t' && t' in Update(s, i, n2).elected && t' !in s.elected && Protected(s, t, k)
    ensures Holds(Update(s, i, n2).elected[t'].log, s.elected[t].log, k)
  {
    assert NodeOk(s, i);
    var q' :| WonBy(s, q', i, t');
    WinnerHolds(s, i, t, k, t', q');
    assert n2.log[..k] == s.nodes[i].log[..k];
  }

  lemma LeaderHoldsKept(s: Cluster, i: nat, n2: NodeState, t: nat, k: nat, t': nat)
    requires Inv(s) && i in s.nodes && Allowed(s, i, n2)
    ensures LeaderHolds(Update(s, i, n2), t, k, t')
  {
    if t < t' && t' in Update(s, i, n2).elected && Protected(Update(s, i, n2), t, k) {
      if !Existed(s, t, k) {
        FreshIsUnprotected(s, i, n2, t, k, t');
      }
      ProtectedEarlier(s, i, n2, t, k);
      LeaderHoldsOld(s, i, n2, t, k, t');
    }
  }

  lemma AckerHoldsKept(s: Cluster, i: nat, n2: NodeState, t: nat, k: nat, v: nat)
    requires Inv(s) && i in s.nodes && Allowed(s, i, n2)
    ensures AckerHolds(Update(s, i, n2), t, k, v)
  {
    var s' := Update(s, i, n2);
    if v in s'.nodes && Protected(s', t, k) && Acked(s', v, t, k) {
      AckIsOldOrOwn(s, i, n2, v, t, k);
      if Acked(s, v, t, k) {
        OldAckInRange(s, v, t, k);
        ProtectedEarlier(s, i, n2, t, k);
        assert AckerHolds(s, t, k, v);
        if v == i {
          SharedStays(s, i, n2, t, k);
        }
      }
    }
  }

  /** Node `i` keeps a protected entry that it holds. */
  lemma SharedStays(s: Cluster, i: nat, n2: NodeState, t: nat, k: nat)
    requires Inv(s) && i in s.nodes && Allowed(s, i, n2)
    requires Protected(s, t, k) && s.nodes[i].term >= t && Holds(s.nodes[i].log, s.elected[t].log, k)
    ensures Holds(n2.log, s.elected[t].log, k)
  {
    hide CandidateOk, ChosenBy, LeadOk, NodeOk, Out, TrackedFixed;
    var n := s.nodes[i];
    assert NodeOk(s, i);
    if n2.log == n.log {
    } else if n2.role == StateLeader {
      assert n2.log[..k] == n.log[..k];
    } else {
      assert LeaderHolds(s, t, k, n2.term);
      var log := s.elected[n2.term].log;
      assert Holds(n.log, log, k);
      assert n2.log[..k] == log[..k];
    }
  }

  lemma GrantCarriesKept(s: Cluster, i: nat, n2: NodeState, t: nat, k: nat, v: nat, c: Camp)
    requires Inv(s) && i in s.nodes && Allowed(s, i, n2)
    ensures GrantCarries(Update(s, i, n2), t, k, v, c)
  {
    hide Inv, Allowed, Update, Granted, Protected, Acked;
    var s' := Update(s, i, n2);
    if t < c.term && Granted(s', v, c.id, c.term) && Protected(s', t, k) && Acked(s', v, t, k) {
      if Granted(s, v, c.id, c.term) {
        OldGrantCarries(s, i, n2, t, k, v, c);
      } else {
        FreshGrantCarries(s, i, n2, t, k, v, c);
      }
    }
  }

  lemma OldGrantCarries(s: Cluster, i: nat, n2: NodeState, t: nat, k: nat, v: nat, c: Camp)
    requires Inv(s) && i in s.nodes && Allowed(s, i, n2) && t < c.term && Granted(s, v, c.id, c.term)
    requires Protected(Update(s, i, n2), t, k) && Acked(Update(s, i, n2), v, t, k)
    ensures GrantCarries(Update(s, i, n2), t, k, v, c)
  {
    assert NodeOk(s, i);
    AckIsOldOrOwn(s, i, n2, v, t, k);
    GrantBindsTerm(s, v, c.id, c.term);
    OldAckInRange(s, v, t, k);
    ProtectedEarlier(s, i, n2, t, k);
    StepGrows(s, i, n2);
    assert GrantCarries(s, t, k, v, c);
  }

  lemma FreshGrantCarries(s: Cluster, i: nat, n2: NodeState, t: nat, k: nat, v: nat, c: Camp)
    requires Inv(s) && i in s.nodes && Allowed(s, i, n2) && t < c.term && !Granted(s, v, c.id, c.term)
    requires Granted(Update(s, i, n2), v, c.id, c.term)
    requires Protected(Update(s, i, n2), t, k) && Acked(Update(s, i, n2), v, t, k)
    ensures GrantCarries(Update(s, i, n2), t, k, v, c)
  {
    assert NodeOk(s, i);
    AckIsOldOrOwn(s, i, n2, v, t, k);
    assert NewMsg(s, Update(s, i, n2), s.nodes[i], n2, GrantMsg(v, c.id, c.term));
    OldAckInRange(s, v, t, k);
    ProtectedEarlier(s, i, n2, t, k);
    assert AckerHolds(s, t, k, v);
    NewGrantCarries(s, i, n2, t, k, c);
  }

  lemma NewGrantCarries(s: Cluster, i: nat, n2: NodeState, t: nat, k: nat, c: Camp)
    requires Inv(s) && i in s.nodes && Allowed(s, i, n2)
    requires NewGrant(Update(s, i, n2), s.nodes[i], n2, GrantMsg(i, c.id, c.term))
    requires t < c.term && Protected(s, t, k) && Holds(s.nodes[i].log, s.elected[t].log, k)
    ensures c in Update(s, i, n2).camps && Holds(Update(s, i, n2).camps[c], s.elected[t].log, k)
  {
    var s' := Update(s, i, n2);
    assert NodeOk(s, i);
    StepGrows(s, i, n2);
    if c in s.camps {
      UpToDateHolds(s, s.nodes[i].log, c, t, k);
    }
  }

  lemma CompleteKept(s: Cluster, i: nat, n2: NodeState)
    requires Inv(s) && i in s.nodes && Allowed(s, i, n2)
    ensures Complete(Update(s, i, n2))
  {
    var s' := Update(s, i, n2);
    forall t: nat, k: nat, t': nat ensures LeaderHolds(s', t, k, t') {
      LeaderHoldsKept(s, i, n2, t, k, t');
    }
    forall t: nat, k: nat, v: nat ensures AckerHolds(s', t, k, v) {
      AckerHoldsKept(s, i, n2, t, k, v);
    }
    forall t: nat, k: nat, v: nat, c: Camp ensures GrantCarries(s', t, k, v, c) {
      GrantCarriesKept(s, i, n2, t, k, v, c);
    }
  }

  /** Every step that the local rule allows keeps the invariant. */
  lemma InvKept(s: Cluster, i: nat, n2: NodeState)
    requires Inv(s) && i in s.nodes && Allowed(s, i, n2)
    ensures Inv(Update(s, i, n2))
  {
    ShapeKept(s, i, n2);
    CompleteKept(s, i, n2);
  }
}
