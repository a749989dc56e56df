/** Follower appends, acknowledgements and proposals obey the local rule. */
module Replication {
  import opened RaftTypes
  import opened LogSpec
  import opened Quorum
  import opened Tracker
  import opened ConfChange
  import opened ConfEntry
  import opened RaftSpec
  import opened Cluster
  import opened Invariant
  import opened Preserve
  import opened Completeness
  import opened NodeSteps

  // ---------------------------------------------------------------------
  // Log matching and the follower's append.

  /** Two traced logs with the same term at `k` agree on everything up to `k`. */
  lemma LogsMatch(s: Cluster, a: seq<Entry>, b: seq<Entry>, k: nat)
    requires Traced(s, a) && Traced(s, b)
    requires 1 <= k <= |a| && k <= |b| && a[k - 1].term == b[k - 1].term
    ensures a[..k] == b[..k]
  {
    if k <= |s.boot| {
      assert a[..k] == s.boot[..k] == b[..k];
    } else {
      assert TracedAt(s, a, k - 1) && TracedAt(s, b, k - 1);
    }
  }

  /** `ents` are the entries of `theirs` that follow index `index`. */
  ghost predicate RunOf(theirs: seq<Entry>, index: nat, ents: seq<Entry>) {
    && index + |ents| <= |theirs|
    && forall k :: 0 <= k < |ents| ==> ents[k] == theirs[index + k]
  }

  /** How far the log carries the entries: all of them, or up to the conflict. */
  ghost function MatchedUpTo(log: seq<Entry>, index: nat, ents: seq<Entry>): int {
    var ci := FindConflict(log, ents); if ci == 0 then index + |ents| else ci - 1
  }

  lemma LastMatched(log: seq<Entry>, index: nat, ents: seq<Entry>)
    requires Contiguous(ents, index + 1) && index <= |log|
    ensures index <= MatchedUpTo(log, index, ents) <= |log|
    ensures MatchedUpTo(log, index, ents) <= index + |ents|
    ensures var u := MatchedUpTo(log, index, ents);
            u > index ==> log[u - 1].term == ents[u - 1 - index].term
  {
    FindConflictExact(log, ents, index + 1);
    var u := MatchedUpTo(log, index, ents);
    if u > index {
      assert MatchTerm(log, index + 1 + (u - 1 - index), ents[u - 1 - index].term);
    }
  }

  lemma AgreeBeforeConflict(s: Cluster, log: seq<Entry>, theirs: seq<Entry>, index: nat, ents: seq<Entry>, u: nat)
    requires Traced(s, log) && Traced(s, theirs)
    requires RunOf(theirs, index, ents)
    requires index <= |log| && TermOf(log, index) == TermOf(theirs, index)
    requires index <= u <= |log| && u <= index + |ents|
    requires u > index ==> log[u - 1].term == ents[u - 1 - index].term
    ensures Holds(log, theirs, u)
  {
    if u > 0 {
      LogsMatch(s, log, theirs, u);
    }
  }

  lemma ConflictSplices(s: Cluster, log: seq<Entry>, theirs: seq<Entry>, index: nat, ents: seq<Entry>, ci: nat)
    requires s.boot <= log && s.boot <= theirs
    requires RunOf(theirs, index, ents)
    requires index < ci <= index + |ents| && ci - 1 <= |log| && log[..ci - 1] == theirs[..ci - 1]
    requires !MatchTerm(log, ci, ents[ci - (index + 1)].term)
    ensures ci > |s.boot|
    ensures var r := Splice(log, ci, ents[ci - (index + 1)..]);
            && r == theirs[..index + |ents|] && s.boot <= r
            && forall k: nat :: Holds(log, theirs, k) ==> k <= |r|
  {
    var r := Splice(log, ci, ents[ci - (index + 1)..]);
    assert r == theirs[..ci - 1] + theirs[ci - 1..index + |ents|];
    assert ents[ci - (index + 1)] == theirs[ci - 1];
  }

  /** The result of merging a run that ends at `last` of the leader's log. */
  ghost predicate MergedFrom(s: Cluster, log: seq<Entry>, theirs: seq<Entry>, last: nat, r: seq<Entry>) {
    && Holds(r, theirs, last) && s.boot <= r
    && (r == log || (r <= theirs && forall k: nat :: Holds(log, theirs, k) ==> k <= |r|))
  }

  lemma MergeCases(log: seq<Entry>, index: nat, ents: seq<Entry>)
    requires Contiguous(ents, index + 1) && index <= |log|
    ensures var (ci, r) := (FindConflict(log, ents), Merge(log, index, ents));
            if ci == 0 then r == log
            else && index < ci <= index + |ents| && ci - 1 <= |log|
                 && !MatchTerm(log, ci, ents[ci - (index + 1)].term)
                 && r == Splice(log, ci, ents[ci - (index + 1)..])
  {
    FindConflictExact(log, ents, index + 1);
  }

  lemma AgreeAsMatched(s: Cluster, log: seq<Entry>, theirs: seq<Entry>, index: nat, ents: seq<Entry>)
    requires Traced(s, log) && Traced(s, theirs) && Contiguous(ents, index + 1)
    requires RunOf(theirs, index, ents)
    requires index <= |log| && TermOf(log, index) == TermOf(theirs, index)
    ensures var u := MatchedUpTo(log, index, ents); u >= 0 && Holds(log, theirs, u)
  {
    LastMatched(log, index, ents);
    AgreeBeforeConflict(s, log, theirs, index, ents, MatchedUpTo(log, index, ents));
  }

  lemma MergeFollowsLeader(s: Cluster, log: seq<Entry>, theirs: seq<Entry>, index: nat, ents: seq<Entry>)
    requires Traced(s, log) && Traced(s, theirs) && Contiguous(ents, index + 1)
    requires RunOf(theirs, index, ents)
    requires index <= |log| && TermOf(log, index) == TermOf(theirs, index)
    ensures var ci := FindConflict(log, ents); ci == 0 || ci > |s.boot|
    ensures MergedFrom(s, log, theirs, index + |ents|, Merge(log, index, ents))
  {
    AgreeAsMatched(s, log, theirs, index, ents);
    MergeCases(log, index, ents);
    var ci, r := FindConflict(log, ents), Merge(log, index, ents);
    if ci == 0 {
      UnchangedFrom(s, log, theirs, index + |ents|);
    } else {
      SplicedFrom(s, log, theirs, index, ents, ci, r);
    }
  }

  lemma UnchangedFrom(s: Cluster, log: seq<Entry>, theirs: seq<Entry>, last: nat)
    requires Holds(log, theirs, last) && s.boot <= log
    ensures MergedFrom(s, log, theirs, last, log)
  {
  }

  lemma SplicedFrom(s: Cluster, log: seq<Entry>, theirs: seq<Entry>, index: nat, ents: seq<Entry>,
                    ci: nat, r: seq<Entry>)
    requires s.boot <= log && s.boot <= theirs
    requires RunOf(theirs, index, ents)
    requires index < ci <= index + |ents| && ci - 1 <= |log| && Holds(log, theirs, ci - 1)
    requires !MatchTerm(log, ci, ents[ci - (index + 1)].term)
    requires r == Splice(log, ci, ents[ci - (index + 1)..])
    ensures ci > |s.boot| && MergedFrom(s, log, theirs, index + |ents|, r)
  {
    ConflictSplices(s, log, theirs, index, ents, ci);
    assert theirs[..index + |ents|] <= theirs;
  }

  /** One acknowledgement, and a log that the leader's log vouches for. */
  ghost predicate AckStep(n: NodeState, r: NodeState, ack: Message) {
    && r == n.(log := r.log, lead := r.lead, msgs := r.msgs, msgsAfterAppend := r.msgsAfterAppend)
    && Out(r) == Out(n) + {ack}
    && ack.mtype == MsgAppResp && ack.from == n.id && ack.term == n.term
  }

  lemma AckAllowed(s: Cluster, i: nat, n: NodeState, r: NodeState, ack: Message)
    requires Shape(s) && At(s, i, n) && n.role == StateFollower && AckStep(n, r, ack)
    requires LeadOk(s, r)
    requires r.log == n.log || Accepts(s, n, r)
    requires ack.reject || (n.term in s.elected && Holds(r.log, s.elected[n.term].log, ack.index))
    ensures Allowed(s, i, r)
  {
    assert NodeOk(s, i);
    var s2, f := Update(s, i, r), s.nodes[i];
    assert r.log != n.log ==> Accepts(s, f, r);
    forall m | m in Out(r) && m !in s.net ensures NewMsg(s, s2, f, r, m) {
      assert m == ack;
    }
  }

  /** handleAppendEntries accepts, or repeats its commit index, or rejects. */
  lemma HandleAppendShape(s: Cluster, i: nat, n: NodeState, m: Message)
    requires Shape(s) && At(s, i, n) && n.role == StateFollower
    requires m.mtype == MsgApp && m.from != NONE && AppOk(s, m) && m.term == n.term
    ensures exists ack: Message ::
              var r := HandleAppendEntries(n.(lead := m.from), m);
              && AckStep(n, r, ack) && r.lead == m.from
              && (r.log == n.log || Accepts(s, n, r))
              && (ack.reject || Holds(r.log, s.elected[n.term].log, ack.index))
  {
    assert NodeOk(s, i) && ElectionLog(s, m.term);
    var a, log := n.(lead := m.from), s.elected[m.term].log;
    if m.index < n.committed {
      var x := Msg(MsgAppResp, m.from).(index := n.committed);
      SendAdds(a, x);
      assert n.log[..n.committed] == s.boot == log[..n.committed];
      assert AckStep(n, Send(a, x), Stamp(a, x));
    } else {
      EntriesAreContiguous(log, m.index, m.entries);
      if MatchTerm(n.log, m.index, m.logTerm) {
        MatchFits(s, i, n, m);
        AcceptShape(s, n, m);
      } else {
        RejectShape(n, m);
      }
    }
  }

  lemma EntriesAreContiguous(log: seq<Entry>, index: nat, ents: seq<Entry>)
    requires Contiguous(log, 1) && index + |ents| <= |log| && ents == log[index..index + |ents|]
    ensures Contiguous(ents, index + 1)
  {
  }

  lemma RejectShape(n: NodeState, m: Message)
    requires m.mtype == MsgApp && m.index >= n.committed && Contiguous(m.entries, m.index + 1)
    requires !MatchTerm(n.log, m.index, m.logTerm)
    ensures exists ack: Message :: ack.reject && AckStep(n, HandleAppendEntries(n.(lead := m.from), m), ack)
    ensures var r := HandleAppendEntries(n.(lead := m.from), m); r.lead == m.from && r.log == n.log
  {
    var a := n.(lead := m.from);
    var at := if m.index < |n.log| then m.index else |n.log|;
    var hint := FindConflictByTerm(n.log, at, m.logTerm);
    var x := Msg(MsgAppResp, m.from).(index := m.index, reject := true, rejectHint := hint.0, logTerm := hint.1);
    SendAdds(a, x);
    assert AckStep(n, Send(a, x), Stamp(a, x));
  }

  /** What a matching append means for its receiver. */
  ghost predicate FitsLeader(s: Cluster, n: NodeState, m: Message) {
    && n.term in s.elected && Traced(s, n.log) && Traced(s, s.elected[n.term].log)
    && n.committed == |s.boot| && n.id != NONE && m.from != NONE
    && m.commit <= n.committed <= m.index && Contiguous(m.entries, m.index + 1)
    && MatchTerm(n.log, m.index, m.logTerm)
    && RunOf(s.elected[n.term].log, m.index, m.entries)
    && TermOf(s.elected[n.term].log, m.index) == Some(m.logTerm)
  }

  lemma MatchFits(s: Cluster, i: nat, n: NodeState, m: Message)
    requires Shape(s) && At(s, i, n) && NodeOk(s, i)
    requires m.from != NONE && AppOk(s, m) && m.term == n.term && ElectionLog(s, m.term)
    requires m.index >= n.committed && Contiguous(m.entries, m.index + 1)
    requires MatchTerm(n.log, m.index, m.logTerm)
    ensures FitsLeader(s, n, m)
  {
  }

  lemma AcceptShape(s: Cluster, n: NodeState, m: Message)
    requires FitsLeader(s, n, m)
    ensures var r := HandleAppendEntries(n.(lead := m.from), m);
            && AckStep(n, r, AcceptAck(n, m)) && r.lead == m.from
            && (r.log == n.log || Accepts(s, n, r))
            && Holds(r.log, s.elected[n.term].log, AcceptAck(n, m).index)
  {
    hide HandleAppendEntries, AckStep, Traced, Accepts, Merge, FindConflict;
    MergeFollowsLeader(s, n.log, s.elected[n.term].log, m.index, m.entries);
    AcceptAnswers(n, m);
    AcceptRule(s, n, HandleAppendEntries(n.(lead := m.from), m), m.index + |m.entries|);
  }

  ghost function AcceptAck(n: NodeState, m: Message): Message {
    Msg(MsgAppResp, m.from).(from := n.id, term := n.term, index := m.index + |m.entries|)
  }

  lemma AcceptRule(s: Cluster, n: NodeState, r: NodeState, last: nat)
    requires n.term in s.elected && r.term == n.term
    requires MergedFrom(s, n.log, s.elected[n.term].log, last, r.log)
    ensures r.log == n.log || Accepts(s, n, r)
  {
  }

  /** A match with no conflict at a committed index is appended. */
  lemma MergesWhole(n: NodeState, m: Message)
    requires Contiguous(m.entries, m.index + 1)
    requires MatchTerm(n.log, m.index, m.logTerm) && m.commit <= n.committed
    requires var ci := FindConflict(n.log, m.entries); ci == 0 || ci > n.committed
    ensures m.index <= |n.log|
    ensures MaybeAppend(n.log, n.committed, m.index, m.logTerm, m.commit, m.entries)
            == Appended(Merge(n.log, m.index, m.entries), n.committed, m.index + |m.entries|)
  {
    AppendCases(n.log, n.committed, m.index, m.logTerm, m.commit, m.entries, Merge(n.log, m.index, m.entries));
  }

  lemma AppendCases(log: seq<Entry>, committed: nat, index: nat, logTerm: nat, commit: nat, ents: seq<Entry>, r: seq<Entry>)
    requires Contiguous(ents, index + 1) && MatchTerm(log, index, logTerm) && index <= |log| && commit <= committed
    requires FindConflict(log, ents) == 0 || FindConflict(log, ents) > committed
    requires r == Merge(log, index, ents)
    ensures MaybeAppend(log, committed, index, logTerm, commit, ents) == Appended(r, committed, index + |ents|)
  {
  }

  lemma AcceptResult(b: NodeState, m: Message)
    requires b.committed <= m.index <= |b.log| && Contiguous(m.entries, m.index + 1)
    requires MaybeAppend(b.log, b.committed, m.index, m.logTerm, m.commit, m.entries)
             == Appended(Merge(b.log, m.index, m.entries), b.committed, m.index + |m.entries|)
    ensures HandleAppendEntries(b, m)
            == Send(b.(log := Merge(b.log, m.index, m.entries)), Msg(MsgAppResp, m.from).(index := m.index + |m.entries|))
  {
    hide IsCampaignType;
  }

  /** With the conflict past the commit index, the merge and one acknowledgement are all that happens. */
  lemma AcceptAnswers(n: NodeState, m: Message)
    requires m.index >= n.committed && Contiguous(m.entries, m.index + 1) && m.from != NONE && n.id != NONE
    requires MatchTerm(n.log, m.index, m.logTerm) && m.commit <= n.committed
    requires var ci := FindConflict(n.log, m.entries); ci == 0 || ci > n.committed
    ensures m.index <= |n.log|
    ensures var r := HandleAppendEntries(n.(lead := m.from), m);
            && r.log == Merge(n.log, m.index, m.entries) && r.lead == m.from
            && AckStep(n, r, AcceptAck(n, m))
  {
    MergesWhole(n, m);
    AcceptResult(n.(lead := m.from), m);
    OneAck(n, m, n.(lead := m.from, log := Merge(n.log, m.index, m.entries)));
  }

  lemma OneAck(n: NodeState, m: Message, a: NodeState)
    requires a == n.(lead := m.from, log := a.log) && n.id != NONE
    ensures var r := Send(a, Msg(MsgAppResp, m.from).(index := m.index + |m.entries|));
            r.log == a.log && r.lead == m.from && AckStep(n, r, AcceptAck(n, m))
  {
    SendAdds(a, Msg(MsgAppResp, m.from).(index := m.index + |m.entries|));
  }

  lemma HandleAppendAllowed(s: Cluster, i: nat, n: NodeState, m: Message)
    requires Shape(s) && At(s, i, n) && n.role == StateFollower
    requires m.mtype == MsgApp && m.from != NONE && AppOk(s, m) && m.term == n.term
    ensures Allowed(s, i, HandleAppendEntries(n.(lead := m.from), m))
  {
    HandleAppendShape(s, i, n, m);
    var r := HandleAppendEntries(n.(lead := m.from), m);
    var ack :| AckStep(n, r, ack) && (ack.reject || Holds(r.log, s.elected[n.term].log, ack.index));
    AckAllowed(s, i, n, r, ack);
  }

  // ---------------------------------------------------------------------
  // The leader records an acknowledgement.

  /** The progress of `v` became `p`, and the leader sent appends. */
  ghost predicate Recorded(n: NodeState, r: NodeState, v: nat, p: Progress) {
    v in n.tracked.trk && OnlySends(SetProgress(n, v, p), r)
  }

  lemma ReachableAfter(n: NodeState, v: nat, p: Progress)
    requires v in n.tracked.trk && AllReachable(n)
    requires 1 <= p.next <= |n.log| + 1 && p.state != StateSnapshot
    ensures AllReachable(SetProgress(n, v, p))
  {
    var r := SetProgress(n, v, p);
    forall u | u in r.tracked.trk ensures PeerReachable(r, u) {
      assert u != v ==> PeerReachable(n, u);
    }
  }

  /** What the recorded progress may be. */
  ghost predicate GoodRecord(n: NodeState, v: nat, p: Progress, index: nat)
    requires v in n.tracked.trk
  {
    var old_ := n.tracked.trk[v];
    && p.matched < p.next <= |n.log| + 1 && p.state != StateSnapshot && p.isLearner == old_.isLearner
    && (p.matched == old_.matched || p.matched == index)
    && (v == n.id ==> !p.msgAppFlowPaused)
  }

  lemma HandleAppendResponseShape(s: Cluster, i: nat, n: NodeState, m: Message)
    requires At(s, i, n) && NodeOk(s, i) && n.role == StateLeader && n.id != NONE
    requires m.from in n.tracked.trk && (m.reject || m.index <= |n.log|)
    ensures exists p: Progress :: Recorded(n, HandleAppendResponse(n, m), m.from, p) && GoodRecord(n, m.from, p, m.index)
                        && (m.reject ==> p.matched == n.tracked.trk[m.from].matched)
  {
    LeaderReachable(s, i, n);
    assert ProgressOk(s, s.nodes[i], m.from);
    var v := m.from;
    var pr := n.tracked.trk[v].(recentActive := true);
    if m.reject {
      OnlySendsNothing(SetProgress(n, v, pr));
      assert Recorded(n, HandleAppendResponse(n, m), v, pr);
    } else {
      var (p, updated) := pr.MaybeUpdate(m.index);
      if updated || (p.matched == m.index && p.state == StateProbe) {
        AfterUnblock(n, m, pr, p);
      } else {
        OnlySendsNothing(SetProgress(n, v, p));
        assert Recorded(n, HandleAppendResponse(n, m), v, p) && GoodRecord(n, v, p, m.index);
      }
    }
  }

  lemma AfterUnblock(n: NodeState, m: Message, pr: Progress, p: Progress)
    requires n.id != NONE && AllReachable(n) && m.from in n.tracked.trk && !m.reject && m.index <= |n.log|
    requires pr == n.tracked.trk[m.from].(recentActive := true)
    requires pr.matched < pr.next <= |n.log| + 1 && pr.state != StateSnapshot
    requires m.from == n.id ==> !pr.msgAppFlowPaused
    requires p == pr.MaybeUpdate(m.index).0
    requires pr.MaybeUpdate(m.index).1 || (p.matched == m.index && p.state == StateProbe)
    ensures Recorded(n, HandleAppendResponse(n, m), m.from, Unblocked(p))
    ensures GoodRecord(n, m.from, Unblocked(p), m.index)
  {
    var v := m.from;
    var n1 := SetProgress(n, v, Unblocked(p));
    ReachableAfter(n, v, Unblocked(p));
    OnlySendsNothing(n1);
    var n2 := if pr.IsPaused() then SendAppend(n1, v) else n1;
    if pr.IsPaused() {
      MaybeSendAppendSends(n1, v, true);
    }
    OnlySendsReachable(n1, n2);
    if n.id != v {
      MaybeSendAppendSends(n2, v, false);
      OnlySendsTrans(n1, n2, MaybeSendAppend(n2, v, false).0);
    }
  }

  lemma RecordedProgress(s: Cluster, i: nat, n: NodeState, r: NodeState, v: nat, p: Progress, k: nat)
    requires Shape(s) && At(s, i, n) && n.role == StateLeader
    requires Recorded(n, r, v, p) && GoodRecord(n, v, p, k)
    requires p.matched == n.tracked.trk[v].matched || k == 0 || Acked(s, v, n.term, k)
    ensures forall u :: u in r.tracked.trk ==> ProgressOk(Update(s, i, r), r, u) && !r.tracked.trk[u].isLearner
  {
    assert NodeOk(s, i);
    var n1 := SetProgress(n, v, p);
    var s2, f := Update(s, i, r), s.nodes[i];
    forall u | u in r.tracked.trk ensures ProgressOk(s2, r, u) && !r.tracked.trk[u].isLearner {
      assert ProgressOk(s, f, u) && SameProgress(n1, r, u);
      assert MatchBacked(s, f, u, n1.tracked.trk[u].matched);
      MatchStays(s, s2, f, u, n1.tracked.trk[u].matched);
    }
  }

  lemma RecordedAllowed(s: Cluster, i: nat, n: NodeState, r: NodeState, v: nat, p: Progress, k: nat)
    requires Shape(s) && At(s, i, n) && n.role == StateLeader
    requires Recorded(n, r, v, p) && GoodRecord(n, v, p, k)
    requires p.matched == n.tracked.trk[v].matched || k == 0 || Acked(s, v, n.term, k)
    ensures Allowed(s, i, r)
  {
    assert NodeOk(s, i);
    var n1 := SetProgress(n, v, p);
    var s1 := s.(nodes := s.nodes[i := Flush(n1)]);
    var s2, f := Update(s, i, r), s.nodes[i];
    assert s2.elected == s.elected && s2.camps == s.camps;
    RecordedProgress(s, i, n, r, v, p, k);
    forall m | m in Out(r) && m !in s.net ensures NewMsg(s, s2, f, r, m) {
      assert AppFrom(n1, m) || HeartbeatFrom(n1, m);
    }
  }

  lemma RecordedSends(n: NodeState, r: NodeState, v: nat, p: Progress)
    requires Recorded(n, r, v, p)
    ensures Out(n) <= Out(r)
  {
    assert Out(SetProgress(n, v, p)) == Out(n);
  }

  lemma AppendResponseAllowed(s: Cluster, i: nat, n: NodeState, m: Message)
    requires Shape(s) && At(s, i, n) && n.role == StateLeader && m in s.net
    requires m.mtype == MsgAppResp && m.term == n.term && m.from in n.tracked.trk
    ensures Allowed(s, i, HandleAppendResponse(n, m))
    ensures Out(n) <= Out(HandleAppendResponse(n, m))
  {
    assert NodeOk(s, i) && MsgOk(s, m);
    HandleAppendResponseShape(s, i, n, m);
    var r := HandleAppendResponse(n, m);
    var p :| Recorded(n, r, m.from, p) && GoodRecord(n, m.from, p, m.index)
             && (m.reject ==> p.matched == n.tracked.trk[m.from].matched);
    if !m.reject {
      assert AckOf(m, m.from, n.term, m.index);
    }
    RecordedAllowed(s, i, n, r, m.from, p, m.index);
    RecordedSends(n, r, m.from, p);
  }

  // ---------------------------------------------------------------------
  // Proposals.

  /** Positions `first`.. of `es` hold at most one change, at the pending index, and only if none was pending. */
  lemma {:induction false} ScreenKeepsPending(es: seq<Entry>, pending: nat, applied: nat, last: nat, joint: bool)
    requires pending <= last
    ensures var r := Screen(es, pending, applied, last, joint);
            && |r.0| == |es| && pending <= r.1 <= last + |es|
            && (forall k :: 0 <= k < |es| && IsConfChange(r.0[k]) ==> last + k + 1 <= r.1)
            && (pending > applied ==> r.1 == pending && forall k :: 0 <= k < |es| ==> !IsConfChange(r.0[k]))
            && (applied <= last ==>
                  forall j, k :: 0 <= j < k < |es| && IsConfChange(r.0[j]) ==> !IsConfChange(r.0[k]))
  {
    if es != [] {
      var refuse := IsConfChange(es[0]) && Refused(es[0], pending, applied, joint);
      var pending' := if IsConfChange(es[0]) && !refuse then last + 1 else pending;
      ScreenKeepsPending(es[1..], pending', applied, last + 1, joint);
      var r := Screen(es, pending, applied, last, joint);
      var rest := Screen(es[1..], pending', applied, last + 1, joint);
      assert forall k :: 1 <= k < |es| ==> r.0[k] == rest.0[k - 1];
    }
  }

  ghost predicate ProposalStep(n: NodeState, r: NodeState, es: seq<Entry>) {
    && r == n.(log := n.log + StampEntries(es, n.term, |n.log|), pendingConfIndex := r.pendingConfIndex,
               msgs := r.msgs, msgsAfterAppend := r.msgsAfterAppend)
    && Out(r) == Out(n) + {Msg(MsgAppResp, n.id).(from := n.id, term := n.term, index := |r.log|)}
    && n.pendingConfIndex <= r.pendingConfIndex <= |r.log|
    && forall k :: 0 <= k < |es| && IsConfChange(es[k]) ==> |n.log| + k + 1 <= r.pendingConfIndex
  }

  lemma ProposalShape(n: NodeState, m: Message)
    requires Proposable(m.entries) && n.id in n.tracked.trk && n.committed <= |n.log| && n.pendingConfIndex <= |n.log|
    requires n.id != NONE
    ensures var (es, pending) := Screen(m.entries, n.pendingConfIndex, n.applied, |n.log|, Joint(n.tracked.cfg));
            ProposalStep(n, AppendEntry(n.(pendingConfIndex := pending), es), es)
  {
    ScreenKeepsPending(m.entries, n.pendingConfIndex, n.applied, |n.log|, Joint(n.tracked.cfg));
    var (es, pending) := Screen(m.entries, n.pendingConfIndex, n.applied, |n.log|, Joint(n.tracked.cfg));
    var n1 := n.(pendingConfIndex := pending, log := n.log + StampEntries(es, n.term, |n.log|));
    assert Out(n1) == Out(n);
    SendAdds(n1, Msg(MsgAppResp, n.id).(index := |n1.log|));
  }

  lemma ProposalKeepsPending(n: NodeState, r: NodeState, es: seq<Entry>)
    requires ProposalStep(n, r, es) && PendingOk(n)
    ensures PendingOk(r)
  {
    forall k | 0 <= k < |r.log| && IsConfChange(r.log[k]) ensures k + 1 <= r.pendingConfIndex {
      if k >= |n.log| {
        assert IsConfChange(es[k - |n.log|]);
      } else {
        assert r.log[k] == n.log[k];
      }
    }
  }

  lemma ProposalAllowed(s: Cluster, i: nat, n: NodeState, r: NodeState, es: seq<Entry>)
    requires Shape(s) && At(s, i, n) && n.role == StateLeader && ProposalStep(n, r, es)
    ensures Allowed(s, i, r)
  {
    hide TrackedFixed;
    assert NodeOk(s, i);
    var s2, f := Update(s, i, r), s.nodes[i];
    assert PendingOk(n);
    ProposalKeepsPending(n, r, es);
    assert s2.camps == s.camps;
    assert LeaderRule(s, f, r) by {
      assert forall k :: 0 <= k < |n.log| ==> r.log[k] == n.log[k];
    }
    forall v | v in r.tracked.trk ensures ProgressOk(s2, r, v) {
      assert ProgressOk(s, f, v);
      MatchStays(s, s2, f, v, f.tracked.trk[v].matched);
    }
    forall m | m in Out(r) && m !in s.net ensures NewMsg(s, s2, f, r, m) {
      assert Holds(r.log, s2.elected[r.term].log, |r.log|);
    }
  }
}
