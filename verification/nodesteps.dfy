/** Every handler of one node obeys the local rule. */
module NodeSteps {
  import opened RaftTypes
  import opened LogSpec
  import opened Quorum
  import opened Tracker
  import opened ConfChange
  import opened ConfEntry
  import opened RaftSpec
  import opened Cluster
  import opened Invariant
  import opened Preserve
  import opened Completeness

  /** Node `i` of `s` is `n`, whose queued messages are already in the network. */
  ghost predicate At(s: Cluster, i: nat, n: NodeState) {
    i in s.nodes && s.nodes[i] == Flush(n) && Out(n) <= s.net
  }

  lemma AfterUpdate(s: Cluster, i: nat, n: NodeState)
    requires i in s.nodes
    ensures At(Update(s, i, n), i, n)
  {
  }

  /** Two updates of one node in a row are one, when the first leaves no other history. */
  lemma UpdateTwice(s: Cluster, i: nat, a: NodeState, b: NodeState)
    requires Out(a) <= Out(b)
    requires a.role == StateLeader ==>
      (b.role == StateLeader && b.term == a.term)
      || (b.role != StateLeader && a.term in s.elected && s.elected[a.term] == Election(i, a.log))
    requires a.role == StateCandidate ==>
      (b.role == StateCandidate && b.term == a.term)
      || (b.role != StateCandidate && Camp(a.term, i) in s.camps && s.camps[Camp(a.term, i)] == a.log)
    ensures Update(Update(s, i, a), i, b) == Update(s, i, b)
  {
    var l, r := Update(Update(s, i, a), i, b), Update(s, i, b);
    assert l.nodes == r.nodes && l.net == r.net;
    assert l.elected == r.elected;
    assert l.camps == r.camps;
  }

  // ---------------------------------------------------------------------
  // Sending.

  ghost predicate CanSend(n: NodeState, m: Message) {
    && (IsCampaignType(m.mtype) <==> m.term != 0)
    && (WaitsForAppend(m.mtype) || m.to != n.id)
  }

  lemma SendAdds(n: NodeState, m: Message)
    requires CanSend(n, m)
    ensures var r := Send(n, m);
            && Out(r) == Out(n) + {Stamp(n, m)}
            && r == n.(msgs := r.msgs, msgsAfterAppend := r.msgsAfterAppend)
  {
    var r := Send(n, m);
    if WaitsForAppend(m.mtype) {
      InSeqAppend(n.msgsAfterAppend, Stamp(n, m));
    } else {
      InSeqAppend(n.msgs, Stamp(n, m));
    }
  }

  lemma InSeqAppend(q: seq<Message>, m: Message)
    ensures (set x | x in q + [m]) == (set x | x in q) + {m}
  {
  }

  /** Nothing of what the invariant sees changed, but for harmless progress flags. */
  ghost predicate SameCore(n: NodeState, r: NodeState) {
    r == n.(msgs := r.msgs, msgsAfterAppend := r.msgsAfterAppend, tracked := r.tracked)
  }

  ghost predicate SameProgress(n: NodeState, r: NodeState, v: nat)
    requires v in n.tracked.trk && v in r.tracked.trk
  {
    && r.tracked.trk[v] == n.tracked.trk[v].(msgAppFlowPaused := r.tracked.trk[v].msgAppFlowPaused)
    && (v == n.id ==> r.tracked.trk[v] == n.tracked.trk[v])
  }

  ghost predicate SameTracked(n: NodeState, r: NodeState) {
    && r.tracked.cfg == n.tracked.cfg && r.tracked.trk.Keys == n.tracked.trk.Keys
    && forall v {:trigger SameProgress(n, r, v)} :: v in n.tracked.trk ==> SameProgress(n, r, v)
  }

  /** A run of the sender's own log. */
  ghost predicate AppFrom(n: NodeState, m: Message) {
    && m.mtype == MsgApp && m.from == n.id && m.term == n.term && m.to != n.id
    && m.index + |m.entries| <= |n.log|
    && m.entries == n.log[m.index..m.index + |m.entries|]
    && TermOf(n.log, m.index) == Some(m.logTerm)
    && m.commit == n.committed
  }

  ghost predicate HeartbeatFrom(n: NodeState, m: Message) {
    m.mtype == MsgHeartbeat && m.from == n.id && m.term == n.term && m.to != n.id
  }

  ghost predicate OnlySends(n: NodeState, r: NodeState) {
    && SameCore(n, r) && SameTracked(n, r)
    && Out(n) <= Out(r)
    && forall m {:trigger AppFrom(n, m)} :: m in Out(r) ==> m in Out(n) || AppFrom(n, m) || HeartbeatFrom(n, m)
  }

  ghost predicate PeerReachable(n: NodeState, v: nat)
    requires v in n.tracked.trk
  {
    1 <= n.tracked.trk[v].next <= |n.log| + 1 && n.tracked.trk[v].state != StateSnapshot
  }

  ghost predicate AllReachable(n: NodeState) {
    forall v {:trigger PeerReachable(n, v)} :: v in n.tracked.trk ==> PeerReachable(n, v)
  }

  lemma OnlySendsTrans(a: NodeState, b: NodeState, c: NodeState)
    requires OnlySends(a, b) && OnlySends(b, c)
    ensures OnlySends(a, c)
  {
    forall v | v in a.tracked.trk ensures SameProgress(a, c, v) {
      assert SameProgress(a, b, v) && SameProgress(b, c, v);
    }
    forall m | m in Out(c) ensures m in Out(a) || AppFrom(a, m) || HeartbeatFrom(a, m) {
      assert AppFrom(b, m) <==> AppFrom(a, m);
    }
  }

  lemma OnlySendsReachable(a: NodeState, b: NodeState)
    requires OnlySends(a, b) && AllReachable(a)
    ensures AllReachable(b)
  {
    forall v | v in b.tracked.trk ensures PeerReachable(b, v) {
      assert SameProgress(a, b, v) && PeerReachable(a, v);
    }
  }

  lemma RunIsFrom(n: NodeState, to: nat, pr: Progress)
    requires 1 <= pr.next <= |n.log| + 1 && to != n.id && n.id != NONE
    ensures AppFrom(n, Stamp(n, AppMsg(n, to, pr.next - 1, EntriesFor(n, pr))))
  {
    var ents := EntriesFor(n, pr);
    if ents != [] {
      var rest := n.log[pr.next - 1..];
      assert ents == rest[..|ents|] == n.log[pr.next - 1..pr.next - 1 + |ents|];
    }
  }

  /** Sending one append after touching one flag of the peer's progress. */
  lemma SendAppOnly(n: NodeState, to: nat, p: Progress, m: Message)
    requires to in n.tracked.trk && to != n.id && CanSend(n, m) && AppFrom(n, Stamp(n, m))
    requires p == n.tracked.trk[to].(msgAppFlowPaused := p.msgAppFlowPaused)
    ensures OnlySends(n, Send(SetProgress(n, to, p), m))
  {
    hide AppFrom;
    var n1 := SetProgress(n, to, p);
    SendAdds(n1, m);
    var r := Send(n1, m);
    assert Out(n1) == Out(n) && Stamp(n1, m) == Stamp(n, m);
    forall v | v in n.tracked.trk ensures SameProgress(n, r, v) {
    }
  }

  lemma MaybeSendAppendSends(n: NodeState, to: nat, sendIfEmpty: bool)
    requires to in n.tracked.trk && to != n.id && AllReachable(n) && n.id != NONE
    ensures OnlySends(n, MaybeSendAppend(n, to, sendIfEmpty).0)
  {
    assert PeerReachable(n, to);
    var pr := n.tracked.trk[to];
    var ents := EntriesFor(n, pr);
    if ents != [] || sendIfEmpty {
      RunIsFrom(n, to, pr);
      SendAppOnly(n, to, pr.UpdateOnEntriesSend(|ents|).value, AppMsg(n, to, pr.next - 1, ents));
    } else {
      OnlySendsNothing(n);
    }
  }

  lemma OnlySendsNothing(n: NodeState)
    ensures OnlySends(n, n)
  {
    forall v | v in n.tracked.trk ensures SameProgress(n, n, v) {
    }
  }

  lemma {:induction false} AppendToAllSends(n: NodeState, ids: seq<nat>, sendIfEmpty: bool)
    requires Elems(ids) <= n.tracked.trk.Keys && AllReachable(n) && n.id != NONE
    ensures OnlySends(n, AppendToAll(n, ids, sendIfEmpty))
    decreases |ids|
  {
    if ids == [] {
      OnlySendsNothing(n);
    } else {
      assert ids[0] in Elems(ids) && Elems(ids[1..]) <= Elems(ids);
      var n1 := if ids[0] == n.id then n else MaybeSendAppend(n, ids[0], sendIfEmpty).0;
      if ids[0] == n.id {
        OnlySendsNothing(n);
      } else {
        MaybeSendAppendSends(n, ids[0], sendIfEmpty);
      }
      OnlySendsReachable(n, n1);
      AppendToAllSends(n1, ids[1..], sendIfEmpty);
      OnlySendsTrans(n, n1, AppendToAll(n, ids, sendIfEmpty));
    }
  }

  lemma SendHeartbeatSends(n: NodeState, to: nat)
    requires to in n.tracked.trk && to != n.id && n.id != NONE
    ensures OnlySends(n, SendHeartbeat(n, to))
  {
    var matched := n.tracked.trk[to].matched;
    var m := Msg(MsgHeartbeat, to).(commit := if matched < n.committed then matched else n.committed);
    SendAdds(n, m);
    var r := SendHeartbeat(n, to);
    forall v | v in n.tracked.trk ensures SameProgress(n, r, v) {
    }
    assert HeartbeatFrom(n, Stamp(n, m));
  }

  lemma {:induction false} HeartbeatToAllSends(n: NodeState, ids: seq<nat>)
    requires Elems(ids) <= n.tracked.trk.Keys && n.id != NONE
    ensures OnlySends(n, HeartbeatToAll(n, ids))
    decreases |ids|
  {
    if ids == [] {
      OnlySendsNothing(n);
    } else {
      assert ids[0] in Elems(ids) && Elems(ids[1..]) <= Elems(ids);
      var n1 := if ids[0] == n.id then n else SendHeartbeat(n, ids[0]);
      if ids[0] == n.id {
        OnlySendsNothing(n);
      } else {
        SendHeartbeatSends(n, ids[0]);
      }
      HeartbeatToAllSends(n1, ids[1..]);
      OnlySendsTrans(n, n1, HeartbeatToAll(n, ids));
    }
  }

  // ---------------------------------------------------------------------
  // A leader that only sends.

  lemma LeaderReachable(s: Cluster, i: nat, n: NodeState)
    requires At(s, i, n) && NodeOk(s, i) && n.role == StateLeader
    ensures AllReachable(n)
  {
    var f := Flush(n);
    forall v | v in n.tracked.trk ensures PeerReachable(n, v) {
      assert ProgressOk(s, f, v);
    }
  }

  lemma LeaderSendsAllowed(s: Cluster, i: nat, n: NodeState, r: NodeState)
    requires Shape(s) && At(s, i, n) && n.role == StateLeader && OnlySends(n, r)
    ensures Allowed(s, i, r)
  {
    assert NodeOk(s, i);
    var s2, f := Update(s, i, r), Flush(n);
    assert s2.elected == s.elected && s2.camps == s.camps;
    forall v | v in r.tracked.trk ensures ProgressOk(s2, r, v) {
      assert ProgressOk(s, f, v) && SameProgress(n, r, v);
      MatchStays(s, s2, f, v, n.tracked.trk[v].matched);
    }
    forall v | v in r.tracked.trk ensures !r.tracked.trk[v].isLearner {
      assert SameProgress(n, r, v);
    }
    forall m | m in Out(r) && m !in s.net ensures NewMsg(s, s2, f, r, m) {
      assert AppFrom(n, m) || HeartbeatFrom(n, m);
    }
  }

  lemma MatchStays(s: Cluster, s2: Cluster, n: NodeState, v: nat, k: nat)
    requires MatchBacked(s, n, v, k) && s.net <= s2.net
    requires forall c :: c in s.camps ==> c in s2.camps && s2.camps[c] == s.camps[c]
    ensures MatchBacked(s2, n, v, k)
  {
    if Acked(s, v, n.term, k) {
      var m :| m in s.net && AckOf(m, v, n.term, k);
      assert m in s2.net && AckOf(m, v, n.term, k);
    }
  }

  // ---------------------------------------------------------------------
  // Followers and candidates that keep their log.

  /** A message that says nothing about votes, logs or leadership. */
  ghost predicate Harmless(s: Cluster, i: nat, m: Message) {
    && m.from in s.peers
    && (m.mtype == MsgProp <==> m.term == 0)
    && (m.mtype != MsgProp ==> m.from == i)
    && match m.mtype
       case MsgProp => Proposable(m.entries)
       case MsgAppResp => m.reject || m.index == 0
       case MsgVoteResp => m.reject
       case MsgPreVote => m.to != m.from
       case MsgPreVoteResp => true
       case MsgHeartbeatResp => true
       case _ => false
  }

  /** A step away from leadership, or within the same role, that keeps the log. */
  ghost predicate Quiet(s: Cluster, n: NodeState, r: NodeState) {
    && r.id == n.id && !r.fault && TrackedFixed(s, r.tracked)
    && r.committed == n.committed && r.applied == n.applied && r.log == n.log
    && n.term <= r.term
    && (n.term == r.term ==> r.vote == n.vote)
    && LeadOk(s, r)
    && (n.role == StateLeader ==> n.term < r.term)
    && r.role != StateLeader
    && (r.role == StateCandidate ==> n.role == StateCandidate && n.term == r.term && VotesBacked(s, r))
  }

  lemma QuietAllowed(s: Cluster, i: nat, n: NodeState, r: NodeState)
    requires Shape(s) && At(s, i, n) && Quiet(s, n, r)
    requires forall m {:trigger Harmless(s, i, m)} :: m in Out(r) ==> m in Out(n) || Harmless(s, i, m)
    ensures Allowed(s, i, r)
  {
    assert NodeOk(s, i);
    var s2, f := Update(s, i, r), s.nodes[i];
    forall m | m in Out(r) && m !in s.net ensures NewMsg(s, s2, f, r, m) {
      assert Harmless(s, i, m);
    }
  }

  lemma ResetFixed(s: Cluster, n: NodeState, term: nat)
    requires TrackedFixed(s, n.tracked)
    ensures TrackedFixed(s, Reset(n, term).tracked)
  {
  }

  /** A newer term, or a step down within the term by a node that does not lead it. */
  lemma BecomeFollowerQuiet(s: Cluster, i: nat, n: NodeState, term: nat, lead: nat)
    requires At(s, i, n) && NodeOk(s, i)
    requires n.term < term || (n.term == term && n.role != StateLeader)
    requires lead != NONE ==> term in s.elected && s.elected[term].leader == lead
    ensures Quiet(s, n, BecomeFollower(n, term, lead))
    ensures Out(BecomeFollower(n, term, lead)) == Out(n)
  {
    ResetFixed(s, n, term);
  }

  lemma FollowerAllowed(s: Cluster, i: nat, n: NodeState, term: nat, lead: nat)
    requires Shape(s) && At(s, i, n)
    requires n.term < term || (n.term == term && n.role != StateLeader)
    requires lead != NONE ==> term in s.elected && s.elected[term].leader == lead
    ensures Allowed(s, i, BecomeFollower(n, term, lead))
  {
    assert NodeOk(s, i);
    BecomeFollowerQuiet(s, i, n, term, lead);
    QuietAllowed(s, i, n, BecomeFollower(n, term, lead));
  }

  /** Sending one harmless message, from any role. */
  lemma SendAllowed(s: Cluster, i: nat, n: NodeState, m: Message)
    requires Shape(s) && At(s, i, n) && CanSend(n, m) && Harmless(s, i, Stamp(n, m))
    ensures Allowed(s, i, Send(n, m))
  {
    assert NodeOk(s, i);
    SendAdds(n, m);
    SameCoreAllowed(s, i, n, Send(n, m), {Stamp(n, m)});
  }

  /** Only the queues changed, by harmless messages. */
  lemma SameCoreAllowed(s: Cluster, i: nat, n: NodeState, r: NodeState, new_: set<Message>)
    requires Shape(s) && At(s, i, n)
    requires r == n.(msgs := r.msgs, msgsAfterAppend := r.msgsAfterAppend)
    requires Out(r) == Out(n) + new_
    requires forall m {:trigger Harmless(s, i, m)} :: m in new_ ==> Harmless(s, i, m)
    ensures Allowed(s, i, r)
  {
    assert NodeOk(s, i);
    var s2, f := Update(s, i, r), s.nodes[i];
    SameHistoryKept(s, i, n, r);
    forall m | m in Out(r) && m !in s.net ensures NewMsg(s, s2, f, r, m) {
      assert Harmless(s, i, m);
    }
    if r.role == StateLeader {
      forall v | v in r.tracked.trk ensures ProgressOk(s2, r, v) {
        assert ProgressOk(s, f, v);
        MatchStays(s, s2, f, v, f.tracked.trk[v].matched);
      }
    }
  }

  lemma SameHistoryKept(s: Cluster, i: nat, n: NodeState, r: NodeState)
    requires At(s, i, n) && NodeOk(s, i)
    requires r.role == n.role && r.term == n.term && r.log == n.log
    ensures Update(s, i, r).elected == s.elected && Update(s, i, r).camps == s.camps
  {
  }

  lemma StayAllowed(s: Cluster, i: nat, n: NodeState)
    requires Shape(s) && At(s, i, n)
    ensures Allowed(s, i, n)
  {
    SameCoreAllowed(s, i, n, n, {});
  }
}
