/** Where the data in the logs comes from: a proposal, and nowhere else. */
module Provenance {
  import opened RaftTypes
  import opened LogSpec
  import opened Quorum
  import opened Tracker
  import opened ConfChange
  import opened ConfEntry
  import opened RaftSpec
  import opened Cluster
  import opened Reactions
  import opened Exchanges
  import opened Proposals

  // ---------------------------------------------------------------------
  // One step.

  /** What the reactions ask of a node. */
  ghost predicate Sound(n: NodeState) {
    && n.id != NONE && n.term >= 1 && n.id in n.tracked.trk && n.committed <= |n.log| && n.applied <= |n.log|
    && (n.role == StateLeader ==>
          PeersInReach(n) && !n.tracked.trk[n.id].msgAppFlowPaused && n.tracked.trk[n.id].state != StateSnapshot)
    && (n.role == StateFollower ==> n.lead != n.id)
  }

  /** What they ask of a message. */
  ghost predicate Deliverable(n: NodeState, m: Message) {
    && m.mtype != MsgSnap
    && (m.term == 0 <==> m.mtype == MsgHup || m.mtype == MsgBeat || m.mtype == MsgProp)
    && (m.mtype == MsgProp ==> Proposable(m.entries))
    && (m.mtype == MsgApp ==> Contiguous(m.entries, m.index + 1) && m.from != n.id)
    && (m.mtype == MsgHeartbeat ==> m.from != n.id)
  }

  ghost predicate SamePayload(a: Entry, b: Entry) { a.etype == b.etype && a.data == b.data }

  ghost predicate ProposedIn(m: Message, x: Entry) {
    m.mtype == MsgProp && exists k :: 0 <= k < |m.entries| && SamePayload(m.entries[k], x)
  }

  ghost predicate EntryFrom(n: NodeState, m: Message, x: Entry) {
    x in n.log || x.data == None || (m.mtype == MsgApp && x in m.entries) || ProposedIn(m, x)
  }

  ghost predicate MsgFrom(n: NodeState, m: Message, r: NodeState, y: Message) {
    || y.entries == []
    || (y.mtype == MsgApp && forall x :: x in y.entries ==> x in r.log)
    || (y.mtype == MsgProp && m.mtype == MsgProp && y.entries == m.entries)
  }

  /** All entries and messages of `r` are accounted for. */
  ghost predicate From(n: NodeState, m: Message, r: NodeState) {
    && (forall x {:trigger EntryFrom(n, m, x)} :: x in r.log ==> EntryFrom(n, m, x))
    && forall y {:trigger MsgFrom(n, m, r, y)} :: y in Out(r) ==> y in Out(n) || MsgFrom(n, m, r, y)
  }

  /** The same log, and these messages besides. */
  lemma SendsFrom(n: NodeState, m: Message, r: NodeState, out: seq<Message>, own: seq<Message>)
    requires r.msgs == n.msgs + out && r.msgsAfterAppend == n.msgsAfterAppend + own
    requires forall x :: x in r.log ==> EntryFrom(n, m, x)
    requires forall y :: y in out ==> MsgFrom(n, m, r, y)
    requires forall y :: y in own ==> MsgFrom(n, m, r, y)
    ensures From(n, m, r)
  {
  }

  lemma QuietFrom(n: NodeState, m: Message, r: NodeState)
    requires r.msgs == n.msgs && r.msgsAfterAppend == n.msgsAfterAppend && r.log == n.log
    ensures From(n, m, r)
  {
  }

  /** At most one message more, and that without entries. */
  lemma AnswerFrom(n: NodeState, m: Message, r: NodeState, y: Message)
    requires r.log == n.log && y.entries == []
    requires (r.msgs == n.msgs && r.msgsAfterAppend == n.msgsAfterAppend + [y])
             || (r.msgs == n.msgs + [y] && r.msgsAfterAppend == n.msgsAfterAppend)
    ensures From(n, m, r)
  {
  }

  /** Appends of the new log to the peers, and an acknowledgement of it. */
  lemma BroadcastFrom(n: NodeState, m: Message, a: NodeState, ids: set<nat>, out: seq<Message>, own: Message)
    requires a.msgs == n.msgs && a.msgsAfterAppend == n.msgsAfterAppend + [own] && own.entries == []
    requires forall x :: x in a.log ==> EntryFrom(n, m, x)
    requires OnePer(out, ids, x => AppendTo(a, x))
    ensures From(n, m, Sent(a, ids, out))
  {
    hide EntryFrom, Due;
    var r := Sent(a, ids, out);
    forall y | y in out ensures MsgFrom(n, m, r, y) {
      var k :| 0 <= k < |out| && out[k] == y;
      assert AppendTo(a, y);
      DueFromLog(a, a.tracked.trk[y.to], y.entries);
    }
    SendsFrom(n, m, r, out, [own]);
  }

  lemma DueFromLog(n: NodeState, p: Progress, es: seq<Entry>)
    requires Due(n, p, es)
    ensures forall x :: x in es ==> x in n.log
  {
    if es != [] {
      var rest := n.log[p.next - 1..];
      forall x | x in es ensures x in n.log {
        var k :| 0 <= k < |es| && es[k] == x;
        assert rest[k] == x;
      }
    }
  }

  lemma RequestsFrom(n: NodeState, m: Message, r: NodeState, out: seq<Message>, own: seq<Message>, t: MessageType, ids: set<nat>)
    requires r.msgs == n.msgs + out && r.msgsAfterAppend == n.msgsAfterAppend + own && r.log == n.log
    requires OnePer(out, ids, x => AsksFor(n, t, n.term + 1, x)) && forall y :: y in own ==> y.entries == []
    ensures From(n, m, r)
  {
    forall y | y in out ensures MsgFrom(n, m, r, y) {
      var k :| 0 <= k < |out| && out[k] == y;
      assert AsksFor(n, t, n.term + 1, y);
    }
    SendsFrom(n, m, r, out, own);
  }

  lemma BeatsFrom(n: NodeState, m: Message, out: seq<Message>, ids: set<nat>)
    requires OnePer(out, ids, x => BeatTo(n, x))
    ensures From(n, m, n.(msgs := n.msgs + out))
  {
    var r := n.(msgs := n.msgs + out);
    forall y | y in out ensures MsgFrom(n, m, r, y) {
      var k :| 0 <= k < |out| && out[k] == y;
      assert BeatTo(n, y);
    }
    assert n.msgsAfterAppend + [] == n.msgsAfterAppend;
    SendsFrom(n, m, r, out, []);
  }

  // ---------------------------------------------------------------------
  // The reactions, role by role; together they are all there is.

  lemma LeaderFrom(n: NodeState, m: Message)
    requires Sound(n) && Deliverable(n, m) && n.role == StateLeader && (m.term == n.term || m.term == 0)
    requires m.mtype != MsgVote && m.mtype != MsgPreVote
    ensures From(n, m, Step(n, m))
  {
    hide Step, OnePer, AppendTo, BeatTo, AsksFor, PeersInReach, Landed, PendingIs, Stays, From, EntryFrom, MsgFrom, Learned, Unpauses, AllDecode;
    if m.mtype == MsgHup {
      var out := HupCampaigns(n, m);
      QuietFrom(n, m, n);
    } else if m.mtype == MsgBeat {
      var out := BeatIsSent(n, m);
      BeatsFrom(n, m, out, n.tracked.trk.Keys - {n.id});
    } else if m.mtype == MsgProp {
      ProposalFrom(n, m);
    } else if m.mtype == MsgAppResp && m.from in n.tracked.trk {
      AckFrom(n, m);
    } else {
      OthersAreIgnored(n, m);
      QuietFrom(n, m, n);
    }
  }

  lemma AckFrom(n: NodeState, m: Message)
    requires Sound(n) && n.role == StateLeader && m.mtype == MsgAppResp && m.term == n.term && m.from in n.tracked.trk
    ensures From(n, m, Step(n, m))
  {
    hide Step, From, PeersInReach, Learned, Unpauses;
    AckIsRecorded(n, m);
    var r := Step(n, m);
    if r.msgs == n.msgs {
      QuietFrom(n, m, r);
    } else {
      AnswerFrom(n, m, r, r.msgs[|n.msgs|]);
    }
  }

  lemma ProposalFrom(n: NodeState, m: Message)
    requires Sound(n) && n.role == StateLeader && m.mtype == MsgProp && m.term == 0 && Proposable(m.entries)
    ensures From(n, m, Step(n, m))
  {
    hide Step, From, PeersInReach, PendingIs, Stays, Proposable, OnePer, AppendTo, Due;
    var es, pending, out := ProposalIsAppended(n, m);
    var a := Extended(n, es, pending);
    forall x | x in a.log ensures EntryFrom(n, m, x) {
      if x !in n.log {
        var k :| 0 <= k < |es| && es[k] == x;
        assert x.data == None || SamePayload(m.entries[k], x);
      }
    }
    BroadcastFrom(n, m, a, n.tracked.trk.Keys - {n.id}, out,
                  Message(MsgAppResp, n.id, n.id, n.term, 0, |n.log| + |es|, [], 0, false, 0));
  }

  lemma VoteFrom(n: NodeState, m: Message)
    requires Sound(n) && (m.mtype == MsgVote || m.mtype == MsgPreVote) && m.term >= n.term
    ensures From(n, m, Step(n, m))
  {
    hide Step, From, IsFree, NotBehind;
    VoteIsAnswered(n, m);
    var r := Step(n, m);
    AnswerFrom(n, m, r, r.msgsAfterAppend[|n.msgsAfterAppend|]);
  }

  lemma FollowerFrom(n: NodeState, m: Message)
    requires Sound(n) && Deliverable(n, m) && n.role == StateFollower && (m.term == n.term || m.term == 0)
    requires m.mtype != MsgVote && m.mtype != MsgPreVote
    ensures From(n, m, Step(n, m))
  {
    hide Step, From, OnePer, AsksFor, PeersInReach, EntryFrom, MsgFrom, AllDecode;
    if m.mtype == MsgHup {
      HupFrom(n, m);
    } else if m.mtype == MsgProp {
      ForwardFrom(n, m);
    } else if m.mtype == MsgApp {
      AppendFrom(n, m);
    } else if m.mtype == MsgHeartbeat {
      BeatIsAnswered(n, m);
      AnswerFrom(n, m, Step(n, m), Message(MsgHeartbeatResp, m.from, n.id, n.term, 0, 0, [], 0, false, 0));
    } else {
      OthersAreIgnored(n, m);
      QuietFrom(n, m, n);
    }
  }

  lemma HupFrom(n: NodeState, m: Message)
    requires m.mtype == MsgHup && m.term == 0
    ensures From(n, m, Step(n, m))
  {
    hide Step, From, OnePer, AsksFor;
    var out := HupCampaigns(n, m);
    var r := Step(n, m);
    if r == n {
      QuietFrom(n, m, n);
    } else {
      RequestsFrom(n, m, r, out,
                   OwnVote(n, Voters(n), if n.preVote then MsgPreVoteResp else MsgVoteResp, n.term + 1),
                   if n.preVote then MsgPreVote else MsgVote, Voters(n) - {n.id});
    }
  }

  lemma ForwardFrom(n: NodeState, m: Message)
    requires Sound(n) && n.role == StateFollower && m.mtype == MsgProp && m.term == 0
    ensures From(n, m, Step(n, m))
  {
    hide Step, From;
    ProposalIsForwarded(n, m);
    var r := Step(n, m);
    if n.lead == NONE {
      QuietFrom(n, m, n);
    } else {
      assert n.msgsAfterAppend + [] == n.msgsAfterAppend;
      SendsFrom(n, m, r, [r.msgs[|n.msgs|]], []);
    }
  }

  lemma AppendFrom(n: NodeState, m: Message)
    requires n.role == StateFollower && m.mtype == MsgApp && m.term == n.term && Contiguous(m.entries, m.index + 1)
    ensures From(n, m, Step(n, m))
  {
    hide Step, From, HasBefore, LargestAtMost, FirstDiffers;
    var r := Step(n, m);
    if m.index < n.committed {
      OldAppendIsAnswered(n, m);
      AnswerFrom(n, m, r, Answer(n, m, n.committed));
    } else if HasBefore(n.log, m.index, m.logTerm) {
      AppendIsAccepted(n, m);
      OverwrittenFrom(n, m, r.log);
      assert n.msgs + [] == n.msgs;
      SendsFrom(n, m, r, [], [Answer(n, m, m.index + |m.entries|)]);
    } else {
      var i := AppendIsRejected(n, m);
      AnswerFrom(n, m, r, r.msgsAfterAppend[|n.msgsAfterAppend|]);
    }
  }

  lemma OverwrittenFrom(n: NodeState, m: Message, r: seq<Entry>)
    requires m.mtype == MsgApp && Overwritten(n.log, m.index, m.entries, r)
    ensures forall x :: x in r ==> EntryFrom(n, m, x)
  {
    if r != n.log {
      var c :| 0 <= c < |m.entries| && FirstDiffers(n.log, m.index, m.entries, c) && r == n.log[..m.index + c] + m.entries[c..];
      forall x | x in r ensures EntryFrom(n, m, x) {
        assert x in n.log[..m.index + c] || x in m.entries[c..];
      }
    }
  }

  lemma CandidateFrom(n: NodeState, m: Message)
    requires Sound(n) && Deliverable(n, m) && (n.role == StateCandidate || n.role == StatePreCandidate)
    requires m.term == n.term || m.term == 0 || (m.term > n.term && m.mtype == MsgPreVoteResp && !m.reject)
    requires m.mtype != MsgVote && m.mtype != MsgPreVote
    ensures From(n, m, Step(n, m))
  {
    hide Step, From, OnePer, AsksFor, PeersInReach, EntryFrom, MsgFrom, AllDecode;
    if m.mtype == MsgHup {
      HupFrom(n, m);
    } else if m.mtype == MsgApp || m.mtype == MsgHeartbeat {
      CandidateYields(n, m);
      if m.mtype == MsgApp {
        QuietFrom(n, m, Step(n, m));
      } else {
        AnswerFrom(n, m, Step(n, m), Message(MsgHeartbeatResp, m.from, n.id, n.term, 0, 0, [], 0, false, 0));
      }
    } else if n.role == StateCandidate && m.mtype == MsgVoteResp {
      CountFrom(n, m);
    } else if n.role == StatePreCandidate && m.mtype == MsgPreVoteResp {
      PreCountFrom(n, m);
    } else {
      IgnoredByCandidate(n, m);
      QuietFrom(n, m, n);
    }
  }

  lemma CountFrom(n: NodeState, m: Message)
    requires Sound(n) && n.role == StateCandidate && m.mtype == MsgVoteResp && m.term == n.term
    ensures From(n, m, Step(n, m))
  {
    hide Step, From, OnePer, AppendTo, Wins, MayWin;
    var out := VoteIsCounted(n, m);
    if Wins(n.tracked.cfg.voters, Counted(n, m)) {
      var a := NewLeader(n);
      BroadcastFrom(n, m, a, n.tracked.trk.Keys - {n.id}, out,
                    Message(MsgAppResp, n.id, n.id, n.term, 0, |n.log| + 1, [], 0, false, 0));
    } else {
      QuietFrom(n, m, Step(n, m));
    }
  }

  lemma PreCountFrom(n: NodeState, m: Message)
    requires Sound(n) && n.role == StatePreCandidate && m.mtype == MsgPreVoteResp
    requires m.term == n.term || (m.term > n.term && !m.reject)
    ensures From(n, m, Step(n, m))
  {
    hide Step, From, OnePer, AsksFor, Wins, MayWin;
    var out := PreVoteIsCounted(n, m);
    if Wins(n.tracked.cfg.voters, Counted(n, m)) {
      RequestsFrom(n, m, Step(n, m), out, OwnVote(n, Voters(n), MsgVoteResp, n.term + 1), MsgVote, Voters(n) - {n.id});
    } else {
      QuietFrom(n, m, Step(n, m));
    }
  }

  lemma IgnoredByCandidate(n: NodeState, m: Message)
    requires n.role == StateCandidate || n.role == StatePreCandidate
    requires m.mtype in {MsgBeat, MsgProp, MsgAppResp, MsgHeartbeatResp, MsgCheckQuorum}
             || m.mtype == (if n.role == StateCandidate then MsgPreVoteResp else MsgVoteResp)
    requires m.term == n.term || m.term == 0 || (m.term > n.term && m.mtype == MsgPreVoteResp && !m.reject)
    ensures Step(n, m) == n
  {
    hide HandleVoteResponse, HandleVoteRequest, Hup;
  }

  /** In every case. */
  lemma StepFrom(n: NodeState, m: Message)
    requires Sound(n) && Deliverable(n, m)
    ensures From(n, m, Step(n, m))
  {
    hide Step, From, PeersInReach, AllDecode;
    if m.term != 0 && m.term < n.term {
      OlderFrom(n, m);
    } else if m.mtype == MsgVote || m.mtype == MsgPreVote {
      VoteFrom(n, m);
    } else if m.term > n.term && (m.mtype != MsgPreVoteResp || m.reject) {
      NewerFrom(n, m);
    } else if n.role == StateLeader || n.role == StateFollower {
      if m.term > n.term {
        AheadIsIgnored(n, m);
        QuietFrom(n, m, n);
      } else if n.role == StateLeader {
        LeaderFrom(n, m);
      } else {
        FollowerFrom(n, m);
      }
    } else {
      CandidateFrom(n, m);
    }
  }

  lemma AheadIsIgnored(n: NodeState, m: Message)
    requires (n.role == StateLeader || n.role == StateFollower) && m.mtype == MsgPreVoteResp && !m.reject && m.term > n.term
    ensures Step(n, m) == n
  {
    hide HandleAppendEntries, HandleVoteRequest, HandleProposal, HandleAppendResponse, BcastHeartbeat, Hup;
  }

  lemma OlderFrom(n: NodeState, m: Message)
    requires 1 <= m.term < n.term
    ensures From(n, m, Step(n, m))
  {
    hide Step, From;
    OlderTerm(n, m);
    var r := Step(n, m);
    if r == n {
      QuietFrom(n, m, n);
    } else {
      AnswerFrom(n, m, r, r.msgsAfterAppend[|n.msgsAfterAppend|]);
    }
  }

  lemma NewerFrom(n: NodeState, m: Message)
    requires Sound(n) && Deliverable(n, m) && m.term > n.term
    requires m.mtype != MsgVote && m.mtype != MsgPreVote && (m.mtype != MsgPreVoteResp || m.reject)
    ensures From(n, m, Step(n, m))
  {
    hide Step, AllDecode, PeersInReach;
    var l := if m.mtype == MsgApp || m.mtype == MsgHeartbeat || m.mtype == MsgSnap then m.from else NONE;
    var a := InNewTerm(n, m.term, l);
    NewerTerm(n, m);
    SoundInNewTerm(n, m.term, l);
    FollowerFrom(a, m);
    SameFrom(n, a, m, Step(n, m));
  }

  lemma SoundInNewTerm(n: NodeState, term: nat, lead: nat)
    requires Sound(n) && term >= 1 && lead != n.id
    ensures Sound(InNewTerm(n, term, lead))
  {
  }

  lemma SameFrom(n: NodeState, a: NodeState, m: Message, r: NodeState)
    requires From(a, m, r) && a.log == n.log && Out(a) == Out(n)
    ensures From(n, m, r)
  {
    forall x | x in r.log ensures EntryFrom(n, m, x) {
      assert EntryFrom(a, m, x);
    }
    forall y | y in Out(r) ensures y in Out(n) || MsgFrom(n, m, r, y) {
      assert y in Out(a) || MsgFrom(a, m, r, y);
    }
  }
}

/** The same over whole runs of the cluster. */
module Origins {
  import opened RaftTypes
  import opened LogSpec
  import opened Quorum
  import opened Tracker
  import opened ConfChange
  import opened ConfEntry
  import opened RaftSpec
  import opened Cluster
  import opened Invariant
  import opened NodeSteps
  import opened Replication
  import opened Events
  import opened Safety
  import opened Provenance
  import Exchanges

  datatype Payload = Payload(etype: EntryType, data: seq<byte>)

  ghost function SaidBy(e: Event): set<Payload> {
    if e.Propose? then set k | 0 <= k < |e.entries| && e.entries[k].data.Some? :: Payload(e.entries[k].etype, e.entries[k].data.value)
    else {}
  }

  ghost predicate Said(said: set<Payload>, x: Entry) { x.data.Some? ==> Payload(x.etype, x.data.value) in said }

  ghost predicate LogSaid(log: seq<Entry>, boot: nat, said: set<Payload>) {
    forall k {:trigger log[k]} :: boot <= k < |log| ==> Said(said, log[k])
  }

  ghost predicate MsgSaid(m: Message, boot: nat, said: set<Payload>) {
    match m.mtype
    case MsgApp => forall x {:trigger Said(said, x)} :: x in m.entries && x.index > boot ==> Said(said, x)
    case MsgProp => forall x {:trigger Said(said, x)} :: x in m.entries ==> Said(said, x)
    case _ => true
  }

  /** All data past the bootstrap entries, in the logs and under way, is of `said`. */
  ghost predicate AllSaid(s: Cluster, said: set<Payload>) {
    && (forall i {:trigger s.nodes[i]} :: i in s.nodes ==> LogSaid(s.nodes[i].log, |s.boot|, said))
    && forall m {:trigger MsgSaid(m, |s.boot|, said)} :: m in s.net ==> MsgSaid(m, |s.boot|, said)
  }

  lemma NodeIsSound(s: Cluster, i: nat)
    requires Inv(s) && i in s.nodes
    ensures Sound(s.nodes[i]) && Contiguous(s.nodes[i].log, 1) && Out(s.nodes[i]) == {}
  {
    var n := s.nodes[i];
    assert NodeOk(s, i);
    if n.lead != NONE {
      assert ElectionWon(s, n.term);
    }
    if n.role == StateLeader {
      assert ProgressOk(s, n, n.id);
      forall v | v in n.tracked.trk ensures Exchanges.InReach(n, v) {
        assert ProgressOk(s, n, v);
      }
    }
  }

  lemma NetIsDeliverable(s: Cluster, m: Message)
    requires Inv(s) && m in s.net && m.to in s.nodes
    ensures Deliverable(s.nodes[m.to], m)
  {
    assert NodeOk(s, m.to) && MsgOk(s, m);
    if m.mtype == MsgApp {
      assert ElectionLog(s, m.term);
      EntriesAreContiguous(s.elected[m.term].log, m.index, m.entries);
    }
  }

  /** The step keeps everything accounted for. */
  lemma StepSaid(s: Cluster, i: nat, m: Message, said: set<Payload>)
    requires Inv(s) && i in s.nodes && Deliverable(s.nodes[i], m) && AllSaid(s, said)
    requires MsgSaid(m, |s.boot|, said)
    requires Inv(Update(s, i, Step(s.nodes[i], m)))
    ensures AllSaid(Update(s, i, Step(s.nodes[i], m)), said)
  {
    hide Step, Inv, Deliverable, Sound, From, MsgSaid, LogSaid;
    var n := s.nodes[i];
    var r := Step(n, m);
    var s' := Update(s, i, r);
    NodeIsSound(s, i);
    NodeIsSound(s', i);
    StepFrom(n, m);
    FromLogSaid(n, m, r, |s.boot|, said);
    FromMsgsSaid(n, m, r, |s.boot|, said);
  }

  lemma FromLogSaid(n: NodeState, m: Message, r: NodeState, boot: nat, said: set<Payload>)
    requires From(n, m, r) && LogSaid(n.log, boot, said) && MsgSaid(m, boot, said)
    requires Contiguous(n.log, 1) && Contiguous(r.log, 1)
    ensures LogSaid(r.log, boot, said)
  {
    forall k | boot <= k < |r.log| ensures Said(said, r.log[k]) {
      var x := r.log[k];
      assert EntryFrom(n, m, x);
      if x in n.log {
        var j :| 0 <= j < |n.log| && n.log[j] == x;
      } else if ProposedIn(m, x) {
        var j :| 0 <= j < |m.entries| && SamePayload(m.entries[j], x);
        assert Said(said, m.entries[j]);
      }
    }
  }

  lemma FromMsgsSaid(n: NodeState, m: Message, r: NodeState, boot: nat, said: set<Payload>)
    requires From(n, m, r) && MsgSaid(m, boot, said) && LogSaid(r.log, boot, said) && Contiguous(r.log, 1)
    ensures forall y :: y in Out(r) && y !in Out(n) ==> MsgSaid(y, boot, said)
  {
    forall y | y in Out(r) && y !in Out(n) ensures MsgSaid(y, boot, said) {
      assert MsgFrom(n, m, r, y);
      if y.mtype == MsgApp {
        RunSaid(r.log, y, boot, said);
      }
    }
  }

  lemma RunSaid(log: seq<Entry>, y: Message, boot: nat, said: set<Payload>)
    requires y.mtype == MsgApp && (forall x :: x in y.entries ==> x in log) && LogSaid(log, boot, said) && Contiguous(log, 1)
    ensures MsgSaid(y, boot, said)
  {
    forall x | x in y.entries && x.index > boot ensures Said(said, x) {
      var k :| 0 <= k < |log| && log[k] == x;
    }
  }

  lemma AppRunSaid(n: NodeState, m: Message, boot: nat, said: set<Payload>)
    requires AppFrom(n, m) && LogSaid(n.log, boot, said) && Contiguous(n.log, 1)
    ensures MsgSaid(m, boot, said)
  {
    RunSaid(n.log, m, boot, said);
  }

  lemma ProbesSaid(s: Cluster, i: nat, id: nat, said: set<Payload>)
    requires Inv(s) && i in s.nodes && id in s.peers && AllSaid(s, said)
    ensures AllSaid(Update(s, i, ApplyConfChange(s.nodes[i], [ConfChangeSingle(ADD_NODE, id)])), said)
  {
    hide ApplyConfChange, MsgSaid, LogSaid, OnlySends;
    var n := s.nodes[i];
    var r := ProbesOnlySend(s, i, id);
    OnlySendsSaid(n, r, |s.boot|, said);
  }

  lemma ProbesOnlySend(s: Cluster, i: nat, id: nat) returns (r: NodeState)
    requires Inv(s) && i in s.nodes && id in s.peers
    ensures r == ApplyConfChange(s.nodes[i], [ConfChangeSingle(ADD_NODE, id)]) && OnlySends(s.nodes[i], r)
    ensures Out(s.nodes[i]) == {} && Contiguous(s.nodes[i].log, 1)
  {
    hide AppendToAll, ApplyConfChange, OnlySends;
    var n := s.nodes[i];
    assert NodeOk(s, i);
    ConfAppliedShape(s, n, id);
    if n.role == StateLeader {
      LeaderReachable(s, i, n);
      AppendToAllSends(n, SortedIds(n.tracked.trk.Keys), false);
      r := AppendToAll(n, SortedIds(n.tracked.trk.Keys), false);
    } else {
      OnlySendsNothing(n);
      r := n;
    }
  }

  lemma OnlySendsSaid(n: NodeState, r: NodeState, boot: nat, said: set<Payload>)
    requires OnlySends(n, r) && Out(n) == {} && LogSaid(n.log, boot, said) && Contiguous(n.log, 1)
    ensures LogSaid(r.log, boot, said) && forall m :: m in Out(r) ==> MsgSaid(m, boot, said)
  {
    forall m | m in Out(r) ensures MsgSaid(m, boot, said) {
      assert AppFrom(n, m) || HeartbeatFrom(n, m);
      SentSaid(n, m, boot, said);
    }
  }

  lemma SentSaid(n: NodeState, m: Message, boot: nat, said: set<Payload>)
    requires AppFrom(n, m) || HeartbeatFrom(n, m)
    requires LogSaid(n.log, boot, said) && Contiguous(n.log, 1)
    ensures MsgSaid(m, boot, said)
  {
    if AppFrom(n, m) {
      AppRunSaid(n, m, boot, said);
    }
  }

  lemma SaidGrows(s: Cluster, said: set<Payload>, more: set<Payload>)
    requires AllSaid(s, said)
    ensures AllSaid(s, said + more)
  {
    forall m | m in s.net ensures MsgSaid(m, |s.boot|, said + more) {
      MsgSaidGrows(m, |s.boot|, said, more);
    }
    forall i | i in s.nodes ensures LogSaid(s.nodes[i].log, |s.boot|, said + more) {
      forall k | |s.boot| <= k < |s.nodes[i].log| ensures Said(said + more, s.nodes[i].log[k]) {
        assert Said(said, s.nodes[i].log[k]);
      }
    }
  }

  lemma MsgSaidGrows(m: Message, boot: nat, said: set<Payload>, more: set<Payload>)
    requires MsgSaid(m, boot, said)
    ensures MsgSaid(m, boot, said + more)
  {
    forall x | x in m.entries && Said(said, x) ensures Said(said + more, x) {
    }
    if m.mtype == MsgApp {
      forall x | x in m.entries && x.index > boot ensures Said(said + more, x) {
        assert Said(said, x);
      }
    } else if m.mtype == MsgProp {
      forall x | x in m.entries ensures Said(said + more, x) {
        assert Said(said, x);
      }
    }
  }

  /** A local message that proposes nothing, or what `said` has already. */
  lemma LocalSaid(s: Cluster, e: Event, i: nat, m: Message, said: set<Payload>)
    requires Inv(s) && i in s.nodes && AllSaid(s, said) && MsgSaid(m, |s.boot|, said)
    requires m.term == 0 && (m.mtype == MsgHup || m.mtype == MsgBeat || (m.mtype == MsgProp && Proposable(m.entries)))
    requires Next(s, e, Update(s, i, Step(s.nodes[i], m)))
    ensures AllSaid(Update(s, i, Step(s.nodes[i], m)), said)
  {
    hide Step, Inv, AllSaid, MsgSaid;
    NextKeeps(s, e, Update(s, i, Step(s.nodes[i], m)));
    StepSaid(s, i, m, said);
  }

  lemma RunIsSaid(s: Cluster, i: nat, to: nat, prev: nat, len: nat, said: set<Payload>)
    requires Inv(s) && i in s.nodes && AllSaid(s, said) && prev + len <= |s.nodes[i].log|
    ensures AllSaid(s.(net := s.net + {AppRun(s.nodes[i], to, prev, len)}), said)
  {
    var n := s.nodes[i];
    assert NodeOk(s, i);
    var m := AppRun(n, to, prev, len);
    forall x | x in m.entries ensures x in n.log {
    }
    RunSaid(n.log, m, |s.boot|, said);
  }

  /** Only proposals add data. */
  lemma NextSaid(s: Cluster, e: Event, s': Cluster, said: set<Payload>)
    requires Inv(s) && Next(s, e, s') && AllSaid(s, said)
    ensures AllSaid(s', said + SaidBy(e))
  {
    hide Step, Inv, AllSaid, MsgSaid, ApplyConfChange, AppRun;
    match e {
      case Deliver(m) =>
        NetIsDeliverable(s, m);
        assert MsgSaid(m, |s.boot|, said) by { MsgIsSaid(s, m, said); }
        NextKeeps(s, e, s');
        StepSaid(s, m.to, m, said);
      case Timeout(i) =>
        HupIsSaid(i, |s.boot|, said);
        LocalSaid(s, e, i, Msg(MsgHup, 0).(from := i), said);
      case Beat(i) =>
        HupIsSaid(i, |s.boot|, said);
        LocalSaid(s, e, i, Msg(MsgBeat, 0).(from := i), said);
      case Propose(i, es) =>
        var more := said + SaidBy(e);
        SaidGrows(s, said, SaidBy(e));
        ProposalSaid(e, |s.boot|, more);
        LocalSaid(s, e, i, Msg(MsgProp, 0).(from := i, entries := es), more);
      case SendRun(i, to, prev, len) => RunIsSaid(s, i, to, prev, len, said);
      case ConfApplied(i, id) => ProbesSaid(s, i, id, said);
      case AppliedTo(i, applied) => AppliedSaid(s, i, applied, said);
    }
    assert !e.Propose? ==> said + SaidBy(e) == said;
  }

  lemma MsgIsSaid(s: Cluster, m: Message, said: set<Payload>)
    requires AllSaid(s, said) && m in s.net
    ensures MsgSaid(m, |s.boot|, said)
  {
  }

  lemma HupIsSaid(i: nat, boot: nat, said: set<Payload>)
    ensures MsgSaid(Msg(MsgHup, 0).(from := i), boot, said) && MsgSaid(Msg(MsgBeat, 0).(from := i), boot, said)
  {
  }

  lemma ProposalSaid(e: Event, boot: nat, said: set<Payload>)
    requires e.Propose? && SaidBy(e) <= said
    ensures MsgSaid(Msg(MsgProp, 0).(from := e.i, entries := e.entries), boot, said)
  {
    forall x | x in e.entries ensures Said(said, x) {
      var k :| 0 <= k < |e.entries| && e.entries[k] == x;
      assert x.data.Some? ==> Payload(x.etype, x.data.value) in SaidBy(e);
    }
  }

  lemma AppliedSaid(s: Cluster, i: nat, applied: nat, said: set<Payload>)
    requires Inv(s) && i in s.nodes && AllSaid(s, said)
    ensures AllSaid(Update(s, i, s.nodes[i].(applied := applied)), said)
  {
    assert NodeOk(s, i);
  }

  // ---------------------------------------------------------------------
  // The theorem.

  ghost predicate ProposedAt(trace: seq<Cluster>, j: nat, e: Event, p: Payload)
    requires j + 1 < |trace|
  {
    Next(trace[j], e, trace[j + 1]) && p in SaidBy(e)
  }

  ghost predicate ProposedBefore(trace: seq<Cluster>, k: nat, p: Payload)
    requires k < |trace|
  {
    exists j: nat, e {:trigger ProposedAt(trace, j, e, p)} :: j < k && ProposedAt(trace, j, e, p)
  }

  lemma {:induction false} SaidSoFar(trace: seq<Cluster>, peers: seq<nat>, payload: nat -> seq<byte>, k: nat) returns (said: set<Payload>)
    requires IsRun(trace, peers, payload) && k < |trace|
    ensures AllSaid(trace[k], said) && forall p :: p in said ==> ProposedBefore(trace, k, p)
  {
    hide Inv, AllSaid, Next, Init;
    if k == 0 {
      said := {};
      NothingSaid(trace[0], peers, payload);
      return;
    }
    var before := SaidSoFar(trace, peers, payload, k - 1);
    RunInv(trace, peers, payload, k - 1);
    assert StepAt(trace, k - 1);
    var e :| Next(trace[k - 1], e, trace[k]);
    NextSaid(trace[k - 1], e, trace[k], before);
    said := before + SaidBy(e);
    forall p | p in said ensures ProposedBefore(trace, k, p) {
      if p in before {
        var j: nat, x :| j < k - 1 && ProposedAt(trace, j, x, p);
        assert ProposedAt(trace, j, x, p);
      } else {
        assert ProposedAt(trace, k - 1, e, p);
      }
    }
  }

  lemma NothingSaid(s: Cluster, peers: seq<nat>, payload: nat -> seq<byte>)
    requires Init(s, peers, payload)
    ensures AllSaid(s, {})
  {
    InitInv(s, peers, payload);
    forall i | i in s.nodes ensures |s.nodes[i].log| == |s.boot| {
      var pv, cq, mx :| s.nodes[i] == Bootstrap(NewNode(i, pv, cq, mx), peers, payload);
      BootstrapShape(s, i, pv, cq, mx, peers, payload);
    }
  }

  /** All data past the bootstrap entries, in any log at any moment, was proposed before, with its type. */
  lemma DataWasProposed(trace: seq<Cluster>, peers: seq<nat>, payload: nat -> seq<byte>, k: nat, a: nat, p: nat)
    returns (j: nat, i: nat, es: seq<Entry>, q: nat)
    requires IsRun(trace, peers, payload) && k < |trace| && a in trace[k].nodes
    requires |peers| <= p < |trace[k].nodes[a].log| && trace[k].nodes[a].log[p].data.Some?
    ensures j < k && Next(trace[j], Propose(i, es), trace[j + 1])
    ensures q < |es| && es[q].etype == trace[k].nodes[a].log[p].etype && es[q].data == trace[k].nodes[a].log[p].data
  {
    hide Inv, Next, Init, StepsAlong, Evolves;
    var said := SaidSoFar(trace, peers, payload, k);
    var x := trace[k].nodes[a].log[p];
    BootLength(trace, peers, payload, k);
    assert LogSaid(trace[k].nodes[a].log, |trace[k].boot|, said);
    var what := Payload(x.etype, x.data.value);
    assert ProposedBefore(trace, k, what);
    var at: nat, e :| at < k && ProposedAt(trace, at, e, what);
    var n :| 0 <= n < |e.entries| && e.entries[n].data.Some?
             && Payload(e.entries[n].etype, e.entries[n].data.value) == what;
    j, i, es, q := at, e.i, e.entries, n;
  }

  lemma BootLength(trace: seq<Cluster>, peers: seq<nat>, payload: nat -> seq<byte>, k: nat)
    requires IsRun(trace, peers, payload) && k < |trace|
    ensures |trace[k].boot| == |peers|
  {
    RunEvolves(trace, peers, payload, 0, k);
  }
}
