/** Runs that get somewhere: every peer can be elected. */
module Witness {
  import opened RaftTypes
  import opened LogSpec
  import opened Quorum
  import opened Tracker
  import opened ConfChange
  import opened ConfEntry
  import opened RaftSpec
  import opened Cluster
  import opened Invariant
  import opened Safety
  import opened Reactions
  import Exchanges

  // ---------------------------------------------------------------------
  // The start.

  ghost function StartNode(id: nat, peers: seq<nat>, payload: nat -> seq<byte>): NodeState {
    Bootstrap(NewNode(id, false, false, 0), peers, payload)
  }

  ghost function Start(peers: seq<nat>, payload: nat -> seq<byte>): Cluster {
    Cluster(Elems(peers), BootEntries(peers, payload), map i | i in Elems(peers) :: StartNode(i, peers, payload),
            {}, map[], map[])
  }

  lemma StartIsRun(peers: seq<nat>, payload: nat -> seq<byte>)
    requires peers != [] && 0 !in peers
    ensures IsRun([Start(peers, payload)], peers, payload)
  {
    var s := Start(peers, payload);
    forall i | i in s.nodes ensures exists pv, cq, mx :: s.nodes[i] == Bootstrap(NewNode(i, pv, cq, mx), peers, payload) {
      assert s.nodes[i] == Bootstrap(NewNode(i, false, false, 0), peers, payload);
    }
  }

  lemma OneMore(run: seq<Cluster>, peers: seq<nat>, payload: nat -> seq<byte>, e: Event, s: Cluster)
    requires IsRun(run, peers, payload) && Next(run[|run| - 1], e, s)
    ensures IsRun(run + [s], peers, payload)
  {
    var r := run + [s];
    forall k: nat | k + 1 < |r| ensures StepAt(r, k) {
      if k + 1 < |run| {
        assert StepAt(run, k) && r[k] == run[k] && r[k + 1] == run[k + 1];
      } else {
        assert r[k] == run[|run| - 1] && r[k + 1] == s;
        assert Steps(run[|run| - 1], s);
      }
    }
  }

  /** Every peer is probed from the last bootstrap entry on. */
  ghost predicate AllProbed(t: Tracked, last: nat) {
    forall v {:trigger t.trk[v]} :: v in t.trk ==> t.trk[v] == Progress(0, last, StateProbe, 0, true, false, false)
  }

  lemma {:induction false} AddPeersProbes(n: NodeState, peers: seq<nat>)
    requires PlainVoters(n.tracked) && 0 !in peers && n.role == StateFollower && AllProbed(n.tracked, |n.log|)
    ensures AllProbed(AddPeers(n, peers).tracked, |n.log|)
    decreases |peers|
  {
    hide Simple;
    if peers != [] {
      var a := ApplyConfChange(n, [ConfChangeSingle(ADD_NODE, peers[0])]);
      AddPeerShape(n, peers[0]);
      AddOneVoter(n.tracked, |n.log|, peers[0]);
      AddPeersProbes(a, peers[1..]);
    }
  }

  /** What Bootstrap leaves: a follower of term 1 with one committed change for each peer, and the peers as its voters. */
  lemma BootstrapIs(id: nat, pv: bool, cq: bool, mx: nat, peers: seq<nat>, payload: nat -> seq<byte>)
    requires 0 !in peers
    ensures var r := Bootstrap(NewNode(id, pv, cq, mx), peers, payload);
            && r == NodeState(id, 1, NONE, StateFollower, NONE, map[], r.tracked, r.log, |peers|, 0, 0, pv, cq, mx, [], [], false)
            && |r.log| == |peers|
            && (forall k :: 0 <= k < |peers| ==> r.log[k] == Entry(1, k + 1, EntryConfChange, Some(payload(peers[k]))))
            && r.tracked.cfg == Config(JointConfig(Elems(peers), {}), {}, {})
            && r.tracked.trk.Keys == Elems(peers) && AllProbed(r.tracked, |peers|)
  {
    hide AddPeers;
    var n1 := BecomeFollower(NewNode(id, pv, cq, mx), 1, NONE).(log := BootEntries(peers, payload), committed := |peers|);
    AddPeersShape(n1, peers);
    AddPeersProbes(n1, peers);
    assert {} + Elems(peers) == Elems(peers);
  }

  // ---------------------------------------------------------------------
  // The poll.

  ghost function RequestTo(s: Cluster, c: nat, v: nat): Message {
    Message(MsgVote, v, c, 2, TermAtEnd(s.boot), |s.boot|, [], 0, false, 0)
  }

  ghost function GrantBy(c: nat, v: nat): Message { Message(MsgVoteResp, c, v, 2, 0, 0, [], 0, false, 0) }

  ghost function AllTrue(vs: set<nat>): map<nat, bool> { map v | v in vs :: true }

  /** A node that has done nothing since the start. */
  ghost predicate Untouched(s: Cluster, v: nat) {
    v in s.nodes
    && var n := s.nodes[v];
       n.term == 1 && n.vote == NONE && n.role == StateFollower && n.log == s.boot && n.id == v
  }

  /** Candidate `c` of term 2 has the votes of `done`; its request is on the way to everybody else. */
  ghost predicate Polling(s: Cluster, c: nat, done: set<nat>) {
    && c in s.nodes && s.nodes.Keys == s.peers && done <= s.peers
    && (var n := s.nodes[c];
        && n.role == StateCandidate && n.term == 2 && n.id == c && n.log == s.boot
        && n.votes == AllTrue(done))
    && GrantBy(c, c) in s.net
    && forall v :: v in s.peers && v != c ==> RequestTo(s, c, v) in s.net && (v !in done ==> Untouched(s, v))
  }

  lemma PollBegins(s: Cluster, c: nat, peers: seq<nat>, payload: nat -> seq<byte>) returns (s': Cluster)
    requires s == Start(peers, payload) && peers != [] && 0 !in peers && c in s.peers
    ensures Next(s, Timeout(c), s') && Polling(s', c, {}) && s'.peers == s.peers
  {
    hide Step, Bootstrap, Init, FreshNode;
    var m := Msg(MsgHup, 0).(from := c);
    forall i | i in s.nodes ensures FreshNode(s, i, s.nodes[i]) && s.nodes[i].vote == NONE && !s.nodes[i].preVote {
      StartIsFresh(s, i, peers, payload);
    }
    s' := Update(s, c, Step(s.nodes[c], m));
    Campaigns(s, c, m);
    forall v | v in s.peers && v != c ensures Untouched(s', v) {
      FreshIsUntouched(s, v);
    }
  }

  lemma FreshIsUntouched(s: Cluster, v: nat)
    requires v in s.nodes && FreshNode(s, v, s.nodes[v]) && s.nodes[v].vote == NONE
    ensures Untouched(s, v)
  {
  }

  lemma Campaigns(s: Cluster, c: nat, m: Message)
    requires c in s.nodes && FreshNode(s, c, s.nodes[c]) && !s.nodes[c].preVote && c in s.peers
    requires m == Msg(MsgHup, 0).(from := c)
    ensures var r := Step(s.nodes[c], m);
            && r.role == StateCandidate && r.term == 2 && r.id == c && r.log == s.boot && r.votes == map[]
            && GrantBy(c, c) in Out(r)
            && forall v :: v in s.peers && v != c ==> RequestTo(s, c, v) in Out(r)
  {
    hide Step, OnePer, AsksFor;
    var n := s.nodes[c];
    var out := HupCampaigns(n, m);
    var r := Step(n, m);
    assert r.msgsAfterAppend[|n.msgsAfterAppend|] == GrantBy(c, c);
    forall v | v in s.peers && v != c ensures RequestTo(s, c, v) in Out(r) {
      RequestIsThere(s, n, out, v);
      assert RequestTo(s, c, v) in r.msgs;
    }
  }

  lemma RequestIsThere(s: Cluster, n: NodeState, out: seq<Message>, v: nat)
    requires OnePer(out, Voters(n) - {n.id}, x => AsksFor(n, MsgVote, 2, x)) && v in Voters(n) && v != n.id
    requires n.log == s.boot
    ensures RequestTo(s, n.id, v) in out
  {
    assert Addressed(out, v);
    var k :| 0 <= k < |out| && out[k].to == v;
    assert AsksFor(n, MsgVote, 2, out[k]);
  }

  lemma StartIsFresh(s: Cluster, i: nat, peers: seq<nat>, payload: nat -> seq<byte>)
    requires s == Start(peers, payload) && 0 !in peers && i in s.peers
    ensures FreshNode(s, i, s.nodes[i]) && s.nodes[i].vote == NONE && !s.nodes[i].preVote
  {
    BootstrapShape(s, i, false, false, 0, peers, payload);
    BootstrapIs(i, false, false, 0, peers, payload);
  }

  /** The request reaches a node that has not voted: it grants. */
  lemma VoterGrants(s: Cluster, c: nat, done: set<nat>, v: nat) returns (s': Cluster)
    requires Inv(s) && Polling(s, c, done) && v in s.peers && v != c && v !in done
    ensures Next(s, Deliver(RequestTo(s, c, v)), s')
    ensures GrantBy(c, v) in s'.net && s'.peers == s.peers && Granting(s', c, done, v)
  {
    hide Step, Inv;
    var m, n := RequestTo(s, c, v), s.nodes[v];
    VoteIsAnswered(n, m);
    s' := Update(s, v, Step(n, m));
    assert GrantBy(c, v) in Step(n, m).msgsAfterAppend;
  }

  /** The poll without the voter whose answer is on its way. */
  ghost predicate Granting(s: Cluster, c: nat, done: set<nat>, v: nat) {
    && c in s.nodes && s.nodes.Keys == s.peers && done <= s.peers && v in s.peers
    && (var n := s.nodes[c];
        && n.role == StateCandidate && n.term == 2 && n.id == c && n.log == s.boot
        && n.votes == AllTrue(done))
    && GrantBy(c, c) in s.net && GrantBy(c, v) in s.net
    && forall u :: u in s.peers && u != c ==> RequestTo(s, c, u) in s.net && (u !in done + {v} ==> Untouched(s, u))
  }

  /** The grant reaches the candidate: it leads, or the poll goes on. */
  lemma GrantCounts(s: Cluster, c: nat, done: set<nat>, v: nat) returns (s': Cluster)
    requires Inv(s) && Granting(s, c, done, v) && v !in done
    ensures Next(s, Deliver(GrantBy(c, v)), s') && s'.peers == s.peers
    ensures Leads(s', c, 2) || (Polling(s', c, done + {v}) && done + {v} != s.peers)
  {
    hide Step, Inv, Exchanges.Wins, Exchanges.MayWin, Exchanges.Sent, Exchanges.NewLeader, OnePer, Exchanges.AppendTo;
    var m, n := GrantBy(c, v), s.nodes[c];
    CandidateFacts(s, c);
    var votes := AllTrue(done + {v});
    assert Exchanges.Counted(n, m) == votes;
    var out := Exchanges.VoteIsCounted(n, m);
    s' := Update(s, c, Step(n, m));
    AllYes(s, n, done + {v}, votes);
    if Exchanges.Wins(n.tracked.cfg.voters, votes) {
      LeaderLeads(n, n.tracked.trk.Keys - {n.id}, out);
    }
  }

  lemma LeaderLeads(n: NodeState, ids: set<nat>, out: seq<Message>)
    ensures var r := Exchanges.Sent(Exchanges.NewLeader(n), ids, out); r.role == StateLeader && r.term == n.term
  {
  }

  lemma CandidateFacts(s: Cluster, c: nat)
    requires Inv(s) && c in s.nodes
    ensures var n := s.nodes[c];
            && n.id == c && n.id in n.tracked.trk && n.committed <= |n.log|
            && n.tracked.cfg.voters == JointConfig(s.peers, {}) && s.peers != {}
  {
    assert NodeOk(s, c);
  }

  /** Nobody says no, and all votes together win. */
  lemma AllYes(s: Cluster, n: NodeState, done: set<nat>, votes: map<nat, bool>)
    requires n.tracked.cfg.voters == JointConfig(s.peers, {}) && s.peers != {} && done <= s.peers
    requires votes == AllTrue(done)
    ensures Exchanges.MayWin(n.tracked.cfg.voters, votes)
    ensures done == s.peers ==> Exchanges.Wins(n.tracked.cfg.voters, votes)
  {
    assert Exchanges.NotNo(s.peers, votes) == s.peers;
    assert Exchanges.SaidYes(s.peers, votes) == done;
  }

  // ---------------------------------------------------------------------
  // The theorem.

  lemma OneMoreVote(run: seq<Cluster>, peers: seq<nat>, payload: nat -> seq<byte>, c: nat, done: set<nat>, v: nat)
    returns (longer: seq<Cluster>)
    requires IsRun(run, peers, payload) && Polling(run[|run| - 1], c, done)
    requires v in run[|run| - 1].peers && v !in done
    ensures IsRun(longer, peers, payload) && longer[|longer| - 1].peers == run[|run| - 1].peers
    ensures var s := longer[|longer| - 1];
            Leads(s, c, 2) || (Polling(s, c, done + {v}) && done + {v} != s.peers)
  {
    hide Inv, Next, Init, StepsAlong, Polling, Granting, GrantBy;
    longer := run;
    var s := run[|run| - 1];
    RunInv(run, peers, payload, |run| - 1);
    if v != c {
      var s1 := VoterGrants(s, c, done, v);
      OneMore(longer, peers, payload, Deliver(RequestTo(s, c, v)), s1);
      longer := longer + [s1];
      RunInv(longer, peers, payload, |longer| - 1);
      s := s1;
    } else {
      OwnGrant(s, c, done);
    }
    var s2 := GrantCounts(s, c, done, v);
    OneMore(longer, peers, payload, Deliver(GrantBy(c, v)), s2);
    longer := longer + [s2];
  }

  lemma OwnGrant(s: Cluster, c: nat, done: set<nat>)
    requires Polling(s, c, done)
    ensures Granting(s, c, done, c)
  {
  }

  lemma SomeoneElse(a: set<nat>, b: set<nat>) returns (v: nat)
    requires a <= b && a != b
    ensures v in b && v !in a
  {
    assert a + (b - a) == b;
    assert b - a != {};
    v :| v in b - a;
  }

  lemma {:induction false} PollEnds(run: seq<Cluster>, peers: seq<nat>, payload: nat -> seq<byte>, c: nat, done: set<nat>)
    returns (longer: seq<Cluster>)
    requires IsRun(run, peers, payload) && Polling(run[|run| - 1], c, done) && done != run[|run| - 1].peers
    ensures IsRun(longer, peers, payload) && Leads(longer[|longer| - 1], c, 2)
    decreases |run[|run| - 1].peers - done|
  {
    hide Init, StepsAlong, Leads;
    var s := run[|run| - 1];
    var v := SomeoneElse(done, s.peers);
    longer := OneMoreVote(run, peers, payload, c, done, v);
    if !Leads(longer[|longer| - 1], c, 2) {
      assert s.peers - (done + {v}) == (s.peers - done) - {v};
      longer := PollEnds(longer, peers, payload, c, done + {v});
    }
  }

  /** Whatever the peers, each of them leads in some run. */
  lemma EveryPeerCanLead(peers: seq<nat>, payload: nat -> seq<byte>, c: nat) returns (run: seq<Cluster>)
    requires c in peers && 0 !in peers
    ensures IsRun(run, peers, payload) && Leads(run[|run| - 1], c, 2)
  {
    hide Next, Polling, Leads, Init, StepsAlong, BootEntries, Bootstrap;
    var s := Start(peers, payload);
    StartIsRun(peers, payload);
    var s1 := PollBegins(s, c, peers, payload);
    OneMore([s], peers, payload, Timeout(c), s1);
    assert c in s1.peers && [s] + [s1] == [s, s1];
    run := PollEnds([s, s1], peers, payload, c, {});
  }
}
