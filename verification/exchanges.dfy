/** Replication seen from outside: what a leader sends, what a follower answers, what the leader learns. */
module Exchanges {
  import opened RaftTypes
  import opened LogSpec
  import opened Quorum
  import opened Tracker
  import opened ConfChange
  import opened RaftSpec
  import opened Reactions

  // ---------------------------------------------------------------------
  // What a peer is sent.

  /** The entries due to a peer: none while replicating, else the longest run from `next` on that the limit allows. */
  ghost predicate Due(n: NodeState, p: Progress, es: seq<Entry>) {
    if p.state == StateReplicate || p.next == 0 || p.next > |n.log| then es == []
    else
      && es != [] && es <= n.log[p.next - 1..]
      && (|es| == 1 || EntsSize(es) <= n.maxMsgSize)
      && (p.next - 1 + |es| < |n.log| ==> EntsSize(n.log[p.next - 1..][..|es| + 1]) > n.maxMsgSize)
  }

  /** An append to a tracked peer, right behind what precedes its next entry. */
  ghost predicate AppendTo(n: NodeState, m: Message) {
    && m.to in n.tracked.trk
    && var p := n.tracked.trk[m.to];
       && 1 <= p.next <= |n.log| + 1 && Due(n, p, m.entries)
       && m == Message(MsgApp, m.to, n.id, n.term, if p.next == 1 then 0 else n.log[p.next - 2].term, p.next - 1,
                       m.entries, n.committed, false, 0)
  }

  /** A probed peer that has been sent entries is paused. */
  ghost function AfterSend(n: NodeState, v: nat): Progress
    requires v in n.tracked.trk
  {
    var p := n.tracked.trk[v];
    if v != n.id && p.state == StateProbe && p.next <= |n.log| then p.(msgAppFlowPaused := true) else p
  }

  lemma DueEntries(n: NodeState, p: Progress)
    ensures Due(n, p, EntriesFor(n, p))
    ensures EntriesFor(n, p) == [] <==> p.state == StateReplicate || p.next == 0 || p.next > |n.log|
  {
    if p.state != StateReplicate && 1 <= p.next <= |n.log| {
      var rest := n.log[p.next - 1..];
      LimitSizeIsLongest(rest, n.maxMsgSize);
      var k := |LimitSize(rest, n.maxMsgSize)|;
      if k < |rest| {
        assert !Fits(rest, k + 1, n.maxMsgSize);
      }
    }
  }

  lemma AppendIsQueued(n: NodeState, to: nat, p: Progress, prev: nat, es: seq<Entry>)
    requires to != n.id && prev <= |n.log|
    ensures Send(SetProgress(n, to, p), AppMsg(n, to, prev, es))
            == SetProgress(n, to, p).(msgs := n.msgs +
                 [Message(MsgApp, to, n.id, n.term, if prev == 0 then 0 else n.log[prev - 1].term, prev, es,
                          n.committed, false, 0)])
  {
  }

  /** One attempt to send to a peer that can be reached from the log. */
  lemma AppendIsSent(n: NodeState, to: nat, sendIfEmpty: bool) returns (m: Message)
    requires to in n.tracked.trk && to != n.id
    requires n.tracked.trk[to].state != StateSnapshot && 1 <= n.tracked.trk[to].next <= |n.log| + 1
    ensures AppendTo(n, m) && m.to == to
    ensures MaybeSendAppend(n, to, sendIfEmpty) ==
              if m.entries == [] && !sendIfEmpty then (n, false)
              else (n.(msgs := n.msgs + [m], tracked := n.tracked.(trk := n.tracked.trk[to := AfterSend(n, to)])), true)
  {
    hide EntriesFor, LimitSize, EntsSize, Due, Send, AppMsg;
    var p := n.tracked.trk[to];
    DueEntries(n, p);
    AppendIsQueued(n, to, AfterSend(n, to), p.next - 1, EntriesFor(n, p));
    m := Message(MsgApp, to, n.id, n.term, if p.next == 1 then 0 else n.log[p.next - 2].term, p.next - 1,
                 EntriesFor(n, p), n.committed, false, 0);
  }

  /** Any other peer: nothing can be read for it, or the source panics. */
  lemma NothingToSend(n: NodeState, to: nat, sendIfEmpty: bool)
    requires to in n.tracked.trk
    requires var p := n.tracked.trk[to];
             p.next == 0 || p.next > |n.log| + 1 || p.state == StateSnapshot
    ensures var p := n.tracked.trk[to];
            MaybeSendAppend(n, to, sendIfEmpty) ==
              if !sendIfEmpty && (p.next == 0 || p.next > |n.log|) then (n, false)
              else if p.next == 0 || p.next > |n.log| + 1 then (n, p.recentActive)
              else (Fault(n), false)
  {
    hide EntriesFor, LimitSize, EntsSize, Due;
    DueEntries(n, n.tracked.trk[to]);
  }

  // ---------------------------------------------------------------------
  // Broadcasts.

  ghost predicate InReach(n: NodeState, v: nat) {
    v in n.tracked.trk && n.tracked.trk[v].state != StateSnapshot && 1 <= n.tracked.trk[v].next <= |n.log| + 1
  }

  /** The peers that get a message: all, or those that entries are due to. */
  ghost predicate Served(n: NodeState, sendIfEmpty: bool, v: nat) {
    && v in n.tracked.trk && v != n.id
    && (sendIfEmpty || (n.tracked.trk[v].state != StateReplicate && n.tracked.trk[v].next <= |n.log|))
  }

  ghost function AllServed(n: NodeState, sendIfEmpty: bool, ids: set<nat>): set<nat> {
    set v | v in ids && Served(n, sendIfEmpty, v)
  }

  ghost function Sent(n: NodeState, ids: set<nat>, out: seq<Message>): NodeState {
    n.(msgs := n.msgs + out,
       tracked := n.tracked.(trk := map v | v in n.tracked.trk :: if v in ids then AfterSend(n, v) else n.tracked.trk[v]))
  }

  /** The node after the first message of a broadcast. */
  ghost function SentOne(n: NodeState, m: Message): NodeState
    requires m.to in n.tracked.trk
  {
    n.(msgs := n.msgs + [m], tracked := n.tracked.(trk := n.tracked.trk[m.to := AfterSend(n, m.to)]))
  }

  lemma SentFirst(n: NodeState, m: Message, ids: set<nat>, rest: seq<Message>)
    requires m.to in n.tracked.trk && m.to !in ids
    ensures Sent(SentOne(n, m), ids, rest) == Sent(n, {m.to} + ids, [m] + rest)
  {
    assert (n.msgs + [m]) + rest == n.msgs + ([m] + rest);
    assert Sent(SentOne(n, m), ids, rest).tracked.trk == Sent(n, {m.to} + ids, [m] + rest).tracked.trk;
  }

  lemma SentNobody(n: NodeState)
    ensures Sent(n, {}, []) == n
  {
    assert n.msgs + [] == n.msgs;
    assert Sent(n, {}, []).tracked.trk == n.tracked.trk;
  }

  /** What is due to the other peers does not change. */
  lemma OthersStay(n: NodeState, m: Message, ids: set<nat>, sendIfEmpty: bool)
    requires m.to in n.tracked.trk && m.to !in ids
    ensures AllServed(SentOne(n, m), sendIfEmpty, ids) == AllServed(n, sendIfEmpty, ids)
    ensures forall x: Message :: x.to in ids && AppendTo(SentOne(n, m), x) ==> AppendTo(n, x)
    ensures forall v :: v in ids && InReach(n, v) ==> InReach(SentOne(n, m), v)
  {
  }

  lemma FirstServed(n: NodeState, ids: seq<nat>, sendIfEmpty: bool)
    requires Increasing(ids) && ids != []
    ensures AllServed(n, sendIfEmpty, Elems(ids))
            == AllServed(n, sendIfEmpty, Elems(ids[1..])) + (if Served(n, sendIfEmpty, ids[0]) then {ids[0]} else {})
  {
    FirstIsLeast(ids);
  }

  /** One message to each peer that is served, in increasing order. */
  lemma {:induction false} AppendsGoOut(n: NodeState, ids: seq<nat>, sendIfEmpty: bool) returns (out: seq<Message>)
    requires Increasing(ids) && Elems(ids) <= n.tracked.trk.Keys
    requires forall v :: v in Elems(ids) && v != n.id ==> InReach(n, v)
    ensures AppendToAll(n, ids, sendIfEmpty) == Sent(n, AllServed(n, sendIfEmpty, Elems(ids)), out)
    ensures OnePer(out, AllServed(n, sendIfEmpty, Elems(ids)), m => AppendTo(n, m))
    decreases |ids|, 1
  {
    hide AppendTo, OnePer, Increasing, Sent, MaybeSendAppend, InReach, SentOne;
    var fits := m => AppendTo(n, m);
    if ids == [] {
      out := [];
      OnePerNobody(fits);
      SentNobody(n);
      assert AllServed(n, sendIfEmpty, Elems(ids)) == {};
      return;
    }
    FirstIsLeast(ids);
    FirstServed(n, ids, sendIfEmpty);
    var v := ids[0];
    if Served(n, sendIfEmpty, v) {
      out := ServesFirst(n, ids, sendIfEmpty);
    } else {
      FirstSkipped(n, ids, sendIfEmpty);
      out := AppendsGoOut(n, ids[1..], sendIfEmpty);
      assert AllServed(n, sendIfEmpty, Elems(ids)) == AllServed(n, sendIfEmpty, Elems(ids[1..]));
    }
  }

  ghost predicate PeersInReach(n: NodeState) {
    forall v :: v in n.tracked.trk && v != n.id ==> InReach(n, v)
  }

  lemma BroadcastGoesOut(n: NodeState) returns (out: seq<Message>)
    requires PeersInReach(n)
    ensures AppendToAll(n, SortedIds(n.tracked.trk.Keys), true) == Sent(n, n.tracked.trk.Keys - {n.id}, out)
    ensures OnePer(out, n.tracked.trk.Keys - {n.id}, x => AppendTo(n, x))
  {
    hide AppendToAll, OnePer, AppendTo, Sent, InReach;
    out := AppendsGoOut(n, SortedIds(n.tracked.trk.Keys), true);
    assert AllServed(n, true, n.tracked.trk.Keys) == n.tracked.trk.Keys - {n.id};
  }

  lemma FirstSkipped(n: NodeState, ids: seq<nat>, sendIfEmpty: bool)
    requires ids != [] && ids[0] in n.tracked.trk && !Served(n, sendIfEmpty, ids[0])
    requires ids[0] != n.id ==> InReach(n, ids[0])
    ensures AppendToAll(n, ids, sendIfEmpty) == AppendToAll(n, ids[1..], sendIfEmpty)
  {
    hide MaybeSendAppend, EntsSize;
    if ids[0] != n.id {
      var m := AppendIsSent(n, ids[0], sendIfEmpty);
    }
  }

  lemma FirstSent(n: NodeState, ids: seq<nat>, sendIfEmpty: bool) returns (m: Message)
    requires ids != [] && Served(n, sendIfEmpty, ids[0]) && InReach(n, ids[0])
    ensures m.to == ids[0] && AppendTo(n, m)
    ensures AppendToAll(n, ids, sendIfEmpty) == AppendToAll(SentOne(n, m), ids[1..], sendIfEmpty)
  {
    hide MaybeSendAppend, EntsSize;
    m := AppendIsSent(n, ids[0], sendIfEmpty);
  }

  lemma {:induction false} ServesFirst(n: NodeState, ids: seq<nat>, sendIfEmpty: bool) returns (out: seq<Message>)
    requires Increasing(ids) && Elems(ids) <= n.tracked.trk.Keys
    requires forall v :: v in Elems(ids) && v != n.id ==> InReach(n, v)
    requires ids != [] && Served(n, sendIfEmpty, ids[0])
    ensures AppendToAll(n, ids, sendIfEmpty) == Sent(n, AllServed(n, sendIfEmpty, Elems(ids)), out)
    ensures OnePer(out, AllServed(n, sendIfEmpty, Elems(ids)), m => AppendTo(n, m))
    decreases |ids|, 0
  {
    hide AppendTo, OnePer, Increasing, Sent, MaybeSendAppend, InReach, AppendToAll;
    FirstIsLeast(ids);
    FirstServed(n, ids, sendIfEmpty);
    var m := FirstSent(n, ids, sendIfEmpty);
    var n1, rest := SentOne(n, m), AllServed(n, sendIfEmpty, Elems(ids[1..]));
    OthersStay(n, m, Elems(ids[1..]), sendIfEmpty);
    var ms := AppendsGoOut(n1, ids[1..], sendIfEmpty);
    OnePerSame(ms, rest, x => AppendTo(n1, x), x => AppendTo(n, x));
    OnePerFirst(m, ms, rest, x => AppendTo(n, x));
    SentFirst(n, m, rest, ms);
    assert AllServed(n, sendIfEmpty, Elems(ids)) == {m.to} + rest;
    out := [m] + ms;
  }

  /**
   * What an applied configuration change does: the new configuration is installed, and a leader that still votes offers
   * the peers whatever entries are due to them, without empty appends.
   */
  lemma ConfIsApplied(n: NodeState, ccs: seq<ConfChangeSingle>) returns (out: seq<Message>)
    requires Simple(n.tracked, |n.log|, ccs).Some?
    requires PeersInReach(n.(tracked := Simple(n.tracked, |n.log|, ccs).value))
    ensures var t := Simple(n.tracked, |n.log|, ccs).value;
            var r := n.(tracked := t);
            if n.role == StateLeader && n.id in t.trk && !t.trk[n.id].isLearner && t.cfg.voters.incoming != {}
            then
              && ApplyConfChange(n, ccs) == Sent(r, AllServed(r, false, t.trk.Keys), out)
              && OnePer(out, AllServed(r, false, t.trk.Keys), m => AppendTo(r, m))
            else ApplyConfChange(n, ccs) == r
  {
    hide AppendToAll, BcastAppend, OnePer, AppendTo, Sent, Simple;
    var t := Simple(n.tracked, |n.log|, ccs).value;
    out := AppendsGoOut(n.(tracked := t), SortedIds(t.trk.Keys), false);
  }

  /** A change that fails is a panic. */
  lemma FailedConfPanics(n: NodeState, ccs: seq<ConfChangeSingle>)
    requires Simple(n.tracked, |n.log|, ccs).None?
    ensures ApplyConfChange(n, ccs) == n.(fault := true)
  {
  }

  // ---------------------------------------------------------------------
  // Heartbeats.

  /** The commit index goes along no further than the peer is known to hold the log. */
  ghost predicate BeatTo(n: NodeState, m: Message) {
    && m.to in n.tracked.trk
    && var k := n.tracked.trk[m.to].matched;
       m == Message(MsgHeartbeat, m.to, n.id, n.term, 0, 0, [], if k < n.committed then k else n.committed, false, 0)
  }

  lemma {:induction false} BeatsGoOut(n: NodeState, ids: seq<nat>) returns (out: seq<Message>)
    requires Increasing(ids) && Elems(ids) <= n.tracked.trk.Keys
    ensures HeartbeatToAll(n, ids) == n.(msgs := n.msgs + out)
    ensures OnePer(out, Elems(ids) - {n.id}, m => BeatTo(n, m))
    decreases |ids|
  {
    hide BeatTo, OnePer, Increasing, HeartbeatToAll;
    var fits := m => BeatTo(n, m);
    if ids == [] {
      out := [];
      OnePerNobody(fits);
      NoBeats(n);
      assert Elems(ids) - {n.id} == {};
      return;
    }
    FirstIsLeast(ids);
    var tail := Elems(ids[1..]) - {n.id};
    if ids[0] == n.id {
      OwnBeat(n, ids);
      out := BeatsGoOut(n, ids[1..]);
      assert Elems(ids) - {n.id} == tail;
    } else {
      var m := FirstBeat(n, ids);
      var n1 := n.(msgs := n.msgs + [m]);
      var ms := BeatsGoOut(n1, ids[1..]);
      SameBeats(n, n1);
      OnePerSame(ms, tail, x => BeatTo(n1, x), fits);
      OnePerFirst(m, ms, tail, fits);
      assert Elems(ids) - {n.id} == {m.to} + tail;
      assert (n.msgs + [m]) + ms == n.msgs + ([m] + ms);
      out := [m] + ms;
    }
  }

  lemma SameBeats(n: NodeState, n1: NodeState)
    requires n1 == n.(msgs := n1.msgs)
    ensures forall x {:trigger BeatTo(n1, x)} :: BeatTo(n1, x) ==> BeatTo(n, x)
  {
  }

  lemma NoBeats(n: NodeState)
    ensures HeartbeatToAll(n, []) == n.(msgs := n.msgs + [])
  {
    assert n.msgs + [] == n.msgs;
  }

  lemma OwnBeat(n: NodeState, ids: seq<nat>)
    requires ids != [] && ids[0] == n.id
    ensures HeartbeatToAll(n, ids) == HeartbeatToAll(n, ids[1..])
  {
  }

  lemma FirstBeat(n: NodeState, ids: seq<nat>) returns (m: Message)
    requires ids != [] && ids[0] != n.id && ids[0] in n.tracked.trk
    ensures m.to == ids[0] && BeatTo(n, m)
    ensures HeartbeatToAll(n, ids) == HeartbeatToAll(n.(msgs := n.msgs + [m]), ids[1..])
  {
    var k := n.tracked.trk[ids[0]].matched;
    m := Message(MsgHeartbeat, ids[0], n.id, n.term, 0, 0, [], if k < n.committed then k else n.committed, false, 0);
  }

  /** What a heartbeat tick makes a leader do. */
  lemma BeatIsSent(n: NodeState, m: Message) returns (out: seq<Message>)
    requires n.role == StateLeader && m.mtype == MsgBeat && m.term == 0
    ensures Step(n, m) == n.(msgs := n.msgs + out)
    ensures OnePer(out, n.tracked.trk.Keys - {n.id}, x => BeatTo(n, x))
  {
    hide HeartbeatToAll, OnePer, Hup, HandleVoteRequest;
    out := BeatsGoOut(n, SortedIds(n.tracked.trk.Keys));
  }

  // ---------------------------------------------------------------------
  // Winning.

  /** The progress of `v` at a new leader, before anything is sent. */
  ghost function Started(n: NodeState, v: nat): Progress
    requires v in n.tracked.trk
  {
    if v == n.id then Progress(|n.log|, |n.log| + 1, StateReplicate, 0, true, false, n.tracked.trk[v].isLearner)
    else Progress(0, |n.log| + 1, StateProbe, 0, false, false, n.tracked.trk[v].isLearner)
  }

  /** A new leader: its log gains one empty entry of its term, which it acknowledges to itself. */
  ghost function NewLeader(n: NodeState): NodeState {
    n.(role := StateLeader, lead := n.id, votes := map[], pendingConfIndex := |n.log|,
       tracked := n.tracked.(trk := map v | v in n.tracked.trk :: Started(n, v)),
       log := n.log + [Entry(n.term, |n.log| + 1, EntryNormal, None)],
       msgsAfterAppend := n.msgsAfterAppend
                          + [Message(MsgAppResp, n.id, n.id, n.term, 0, |n.log| + 1, [], 0, false, 0)])
  }

  lemma LeaderBegins(n: NodeState)
    requires n.role != StateFollower && n.id in n.tracked.trk && n.committed <= |n.log|
    ensures BecomeLeader(n) == NewLeader(n)
  {
    hide AppendEntry;
    var n1 := Reset(n, n.term).(lead := n.id, role := StateLeader);
    var pr := n1.tracked.trk[n.id].BecomeReplicate().(recentActive := true);
    assert SetProgress(n1, n.id, pr).tracked.trk == NewLeader(n).tracked.trk;
    EmptyIsAppended(SetProgress(n1, n.id, pr).(pendingConfIndex := |n.log|));
  }

  lemma EmptyIsAppended(n: NodeState)
    requires n.committed <= |n.log|
    ensures AppendEntry(n, [EMPTY_ENTRY])
            == n.(log := n.log + [Entry(n.term, |n.log| + 1, EntryNormal, None)],
                  msgsAfterAppend := n.msgsAfterAppend
                                     + [Message(MsgAppResp, n.id, n.id, n.term, 0, |n.log| + 1, [], 0, false, 0)])
  {
    assert StampEntries([EMPTY_ENTRY], n.term, |n.log|) == [Entry(n.term, |n.log| + 1, EntryNormal, None)];
  }

  /** Every other peer is probed with that entry. */
  lemma LeaderAnnounces(n: NodeState) returns (out: seq<Message>)
    requires n.role != StateFollower && n.id in n.tracked.trk && n.committed <= |n.log|
    ensures BcastAppend(BecomeLeader(n)) == Sent(NewLeader(n), n.tracked.trk.Keys - {n.id}, out)
    ensures OnePer(out, n.tracked.trk.Keys - {n.id}, x => AppendTo(NewLeader(n), x))
  {
    hide AppendToAll, OnePer, BecomeLeader, AppendTo, Sent;
    LeaderBegins(n);
    assert NewLeader(n).tracked.trk.Keys == n.tracked.trk.Keys;
    out := BroadcastGoesOut(NewLeader(n));
  }

  /** The answer of `m` recorded, unless its sender has answered before. */
  ghost function Counted(n: NodeState, m: Message): map<nat, bool> {
    if m.from in n.votes then n.votes else n.votes[m.from := !m.reject]
  }

  /** More than half of a configuration, or there is nobody in it. */
  ghost predicate Half(c: set<nat>, q: set<nat>) { c == {} || 2 * |q| > |c| }

  ghost predicate AllSaidYes(c: set<nat>, votes: map<nat, bool>) {
    Half(c, SaidYes(c, votes))
  }

  ghost function SaidYes(c: set<nat>, votes: map<nat, bool>): set<nat> { set v | v in c && v in votes && votes[v] }

  ghost predicate MaySayYes(c: set<nat>, votes: map<nat, bool>) {
    Half(c, NotNo(c, votes))
  }

  ghost function NotNo(c: set<nat>, votes: map<nat, bool>): set<nat> { set v | v in c && (v !in votes || votes[v]) }

  ghost predicate Wins(c: JointConfig, votes: map<nat, bool>) {
    AllSaidYes(c.incoming, votes) && AllSaidYes(c.outgoing, votes)
  }

  ghost predicate MayWin(c: JointConfig, votes: map<nat, bool>) {
    MaySayYes(c.incoming, votes) && MaySayYes(c.outgoing, votes)
  }

  lemma MajorityIs(c: set<nat>, votes: map<nat, bool>)
    ensures MajorityVote(c, votes) == VoteWon <==> AllSaidYes(c, votes)
    ensures MajorityVote(c, votes) == VoteLost <==> !MaySayYes(c, votes)
  {
    assert SaidYes(c, votes) == Yes(c, votes);
    assert NotNo(c, votes) == Yes(c, votes) + Missing(c, votes);
    assert Yes(c, votes) !! Missing(c, votes);
  }

  lemma JointIs(c: JointConfig, votes: map<nat, bool>)
    ensures JointVote(c, votes) == VoteWon <==> Wins(c, votes)
    ensures JointVote(c, votes) == VoteLost <==> !MayWin(c, votes)
  {
    hide MajorityVote, AllSaidYes, MaySayYes;
    MajorityIs(c.incoming, votes);
    MajorityIs(c.outgoing, votes);
    var r1, r2 := MajorityVote(c.incoming, votes), MajorityVote(c.outgoing, votes);
    assert JointVote(c, votes) == VoteLost <==> r1 == VoteLost || r2 == VoteLost;
    assert MayWin(c, votes) <==> r1 != VoteLost && r2 != VoteLost;
  }

  lemma StepIsCount(n: NodeState, m: Message)
    requires n.role == StateCandidate && m.mtype == MsgVoteResp && m.term == n.term
    ensures Step(n, m) == HandleVoteResponse(n, m)
  {
    hide HandleVoteResponse, Hup, HandleVoteRequest;
  }

  /** A vote response decides the election, ends it, or is only remembered. */
  lemma VoteIsCounted(n: NodeState, m: Message) returns (out: seq<Message>)
    requires n.role == StateCandidate && m.mtype == MsgVoteResp && m.term == n.term >= 1
    requires n.id in n.tracked.trk && n.committed <= |n.log|
    ensures var (c, votes) := (n.tracked.cfg.voters, Counted(n, m));
            && (Wins(c, votes) ==>
                  && Step(n, m) == Sent(NewLeader(n), n.tracked.trk.Keys - {n.id}, out)
                  && OnePer(out, n.tracked.trk.Keys - {n.id}, x => AppendTo(NewLeader(n), x)))
            && (!Wins(c, votes) && MayWin(c, votes) ==> Step(n, m) == n.(votes := votes))
            && (!MayWin(c, votes) ==> Step(n, m) == SteppedDown(n))
  {
    hide AppendToAll, BecomeLeader, AppendTo, Sent, Wins, MayWin, BcastAppend, Campaign, JointVote, BecomeFollower, OnePer, Step;
    StepIsCount(n, m);
    JointIs(n.tracked.cfg.voters, Counted(n, m));
    var n1 := n.(votes := Counted(n, m));
    out := LeaderAnnounces(n1);
    assert NewLeader(n1) == NewLeader(n);
    StepsDown(n1);
    assert RecordVote(n, m.from, !m.reject) == n1;
    if !MayWin(n.tracked.cfg.voters, Counted(n, m)) {
      assert HandleVoteResponse(n, m) == BecomeFollower(n1, n1.term, NONE);
      assert SteppedDown(n1).tracked.trk == SteppedDown(n).tracked.trk;
    }
  }

  /** A follower of the same term without a leader. */
  ghost function SteppedDown(n: NodeState): NodeState {
    n.(role := StateFollower, lead := NONE, votes := map[], tracked := n.tracked.(trk := Restarted(n)), pendingConfIndex := 0)
  }

  lemma StepsDown(n: NodeState)
    ensures BecomeFollower(n, n.term, NONE) == SteppedDown(n)
  {
    assert Reset(n, n.term).tracked.trk == Restarted(n);
  }

  /** A won pre-vote starts the real campaign; the term is raised only then. */
  lemma PreVoteIsCounted(n: NodeState, m: Message) returns (out: seq<Message>)
    requires n.role == StatePreCandidate && m.mtype == MsgPreVoteResp
    requires m.term == n.term >= 1 || (m.term > n.term && !m.reject)
    ensures var (c, votes, more) := (n.tracked.cfg.voters, Counted(n, m), n.term + 1);
            && (Wins(c, votes) ==>
                  && Step(n, m) ==
                       n.(role := StateCandidate, lead := NONE, votes := map[], msgs := n.msgs + out,
                          term := more, vote := n.id, tracked := n.tracked.(trk := Restarted(n)), pendingConfIndex := 0,
                          msgsAfterAppend := n.msgsAfterAppend + OwnVote(n, Voters(n), MsgVoteResp, more))
                  && OnePer(out, Voters(n) - {n.id}, x => AsksFor(n, MsgVote, more, x)))
            && (!Wins(c, votes) && MayWin(c, votes) ==> Step(n, m) == n.(votes := votes))
            && (!MayWin(c, votes) ==> Step(n, m) == SteppedDown(n))
  {
    hide Wins, MayWin, BcastAppend, BecomeLeader, Campaign, JointVote, BecomeFollower, OnePer, AsksFor;
    JointIs(n.tracked.cfg.voters, Counted(n, m));
    var n1 := n.(votes := Counted(n, m));
    out := CampaignGoesOut(n1, false);
    assert Step(n, m) == HandleVoteResponse(n, m) && RecordVote(n, m.from, !m.reject) == n1;
    SameRequests(n, n1, MsgVote, n.term + 1);
    OnePerSame(out, Voters(n) - {n.id}, x => AsksFor(n1, MsgVote, n.term + 1, x), x => AsksFor(n, MsgVote, n.term + 1, x));
    StepsDown(n1);
    assert Restarted(n1) == Restarted(n);
    if !MayWin(n.tracked.cfg.voters, Counted(n, m)) {
      assert HandleVoteResponse(n, m) == BecomeFollower(n1, n1.term, NONE);
    }
  }

  lemma SameRequests(n: NodeState, n1: NodeState, t: MessageType, term: nat)
    requires n1 == n.(votes := n1.votes)
    ensures forall x {:trigger AsksFor(n1, t, term, x)} :: AsksFor(n1, t, term, x) ==> AsksFor(n, t, term, x)
  {
  }

  // ---------------------------------------------------------------------
  // What a leader learns from an acknowledgement.

  /** The progress after a positive answer that acknowledges index `k`. */
  ghost function Learned(p: Progress, k: nat): Progress {
    var matched := if k > p.matched then k else p.matched;
    var next := if k + 1 > p.next then k + 1 else p.next;
    if k > p.matched && p.state == StateReplicate
    then p.(matched := k, next := next, recentActive := true, msgAppFlowPaused := false)
    else if k > p.matched || (k == p.matched && p.state == StateProbe)
    then Progress(matched, matched + 1, StateReplicate, 0, true, false, p.isLearner)
    else p.(next := next, recentActive := true)
  }

  /** The acknowledgement that unblocks a paused peer is answered with an empty append. */
  ghost function Unpauses(p: Progress, k: nat): bool {
    && (k > p.matched || (k == p.matched && p.state == StateProbe))
    && (p.msgAppFlowPaused || p.state == StateSnapshot)
  }

  /** A peer in replicate state is sent no entries. */
  lemma ReplicatingIsSilent(n: NodeState, to: nat)
    requires to in n.tracked.trk && n.tracked.trk[to].state == StateReplicate
    ensures MaybeSendAppend(n, to, false) == (n, false)
  {
  }

  lemma ReplicatingIsTold(n: NodeState, to: nat)
    requires to in n.tracked.trk && n.tracked.trk[to].state == StateReplicate && to != n.id
    ensures var p := n.tracked.trk[to];
            SendAppend(n, to) ==
              if p.next == 0 || p.next > |n.log| + 1 then n
              else n.(msgs := n.msgs +
                        [Message(MsgApp, to, n.id, n.term, if p.next == 1 then 0 else n.log[p.next - 2].term,
                                 p.next - 1, [], n.committed, false, 0)])
  {
    hide Send, AppMsg;
    var p := n.tracked.trk[to];
    assert SetProgress(n, to, p) == n;
    if 1 <= p.next <= |n.log| + 1 {
      AppendIsQueued(n, to, p, p.next - 1, []);
    }
  }

  lemma AckIsRecorded(n: NodeState, m: Message)
    requires n.role == StateLeader && m.mtype == MsgAppResp && m.term == n.term && m.from in n.tracked.trk
    requires m.from == n.id ==> !n.tracked.trk[m.from].msgAppFlowPaused && n.tracked.trk[m.from].state != StateSnapshot
    ensures var p := n.tracked.trk[m.from];
            var q := if m.reject then p.(recentActive := true) else Learned(p, m.index);
            var r := n.(tracked := n.tracked.(trk := n.tracked.trk[m.from := q]));
            Step(n, m) ==
              if m.reject || !Unpauses(p, m.index) || q.next > |n.log| + 1 then r
              else r.(msgs := n.msgs +
                        [Message(MsgApp, m.from, n.id, n.term, if q.next == 1 then 0 else n.log[q.next - 2].term,
                                 q.next - 1, [], n.committed, false, 0)])
  {
    hide HandleAppendResponse, HandleProposal, BcastHeartbeat, Hup, HandleVoteRequest, Learned, Unpauses;
    AckIsHandled(n, m);
  }

  lemma AckIsHandled(n: NodeState, m: Message)
    requires m.from in n.tracked.trk
    requires m.from == n.id ==> !n.tracked.trk[m.from].msgAppFlowPaused && n.tracked.trk[m.from].state != StateSnapshot
    ensures var p := n.tracked.trk[m.from];
            var q := if m.reject then p.(recentActive := true) else Learned(p, m.index);
            var r := n.(tracked := n.tracked.(trk := n.tracked.trk[m.from := q]));
            HandleAppendResponse(n, m) ==
              if m.reject || !Unpauses(p, m.index) || q.next > |n.log| + 1 then r
              else r.(msgs := n.msgs +
                        [Message(MsgApp, m.from, n.id, n.term, if q.next == 1 then 0 else n.log[q.next - 2].term,
                                 q.next - 1, [], n.committed, false, 0)])
  {
    hide BcastAppend, MaybeSendAppend, SendAppend;
    var p := n.tracked.trk[m.from];
    var p1 := p.(recentActive := true);
    var q := Learned(p, m.index);
    var r := SetProgress(n, m.from, q);
    if !m.reject && (m.index > p.matched || (m.index == p.matched && p.state == StateProbe)) {
      assert Unblocked(p1.MaybeUpdate(m.index).0) == q;
      var told := if p1.IsPaused() then SendAppend(r, m.from) else r;
      if m.from != n.id {
        ReplicatingIsTold(r, m.from);
      }
      ReplicatingIsSilent(told, m.from);
    }
  }

  // ---------------------------------------------------------------------
  // What a follower answers.

  /** The last index up to `at` whose term is at most `term`, or unknown. */
  ghost predicate LargestAtMost(log: seq<Entry>, at: nat, term: nat, i: nat) {
    i <= at && !TooNew(log, i, term) && forall j: nat :: i < j <= at ==> TooNew(log, j, term)
  }

  ghost predicate TooNew(log: seq<Entry>, j: nat, term: nat) { 1 <= j <= |log| && log[j - 1].term > term }

  /** The log with the entries written over it from the first one that it lacks or holds with another term. */
  ghost predicate Overwritten(log: seq<Entry>, index: nat, es: seq<Entry>, r: seq<Entry>) {
    if index + |es| <= |log| && forall k :: 0 <= k < |es| ==> log[index + k].term == es[k].term then r == log
    else
      exists c :: 0 <= c < |es| && FirstDiffers(log, index, es, c) && r == log[..index + c] + es[c..]
  }

  ghost predicate FirstDiffers(log: seq<Entry>, index: nat, es: seq<Entry>, c: nat)
    requires c < |es|
  {
    && index + c <= |log|
    && (forall k :: 0 <= k < c ==> log[index + k].term == es[k].term)
    && (index + c < |log| ==> log[index + c].term != es[c].term)
  }

  ghost predicate HasBefore(log: seq<Entry>, index: nat, term: nat) {
    if index == 0 then term == 0 else index <= |log| && log[index - 1].term == term
  }

  ghost function Answer(n: NodeState, m: Message, index: nat): Message {
    Message(MsgAppResp, m.from, n.id, n.term, 0, index, [], 0, false, 0)
  }

  /** An append below the commit index is answered with the commit index. */
  lemma OldAppendIsAnswered(n: NodeState, m: Message)
    requires n.role == StateFollower && m.mtype == MsgApp && m.term == n.term && m.index < n.committed
    ensures Step(n, m)
            == n.(lead := m.from, msgsAfterAppend := n.msgsAfterAppend + [Answer(n, m, n.committed)])
  {
    hide MaybeAppend, FindConflictByTerm, Step;
    StepIsAppend(n, m);
  }

  /** A fitting append is written over the log and acknowledged up to its last entry. */
  lemma AppendIsAccepted(n: NodeState, m: Message)
    requires n.role == StateFollower && m.mtype == MsgApp && m.term == n.term && n.committed <= m.index
    requires Contiguous(m.entries, m.index + 1) && HasBefore(n.log, m.index, m.logTerm)
    ensures var (r, last) := (Step(n, m), m.index + |m.entries|);
            && Overwritten(n.log, m.index, m.entries, r.log)
            && r == n.(lead := m.from, log := r.log,
                       committed := if m.commit <= n.committed then n.committed
                                    else if m.commit <= last then m.commit else last,
                       msgsAfterAppend := n.msgsAfterAppend + [Answer(n, m, last)])
  {
    hide FindConflictByTerm, Step, HandleAppendEntries, MaybeAppend, Overwritten;
    var log := MergedAs(n, m);
    StepIsAppend(n, m);
    HandlesFitting(n.(lead := m.from), m);
  }

  lemma StepIsAppend(n: NodeState, m: Message)
    requires n.role == StateFollower && m.mtype == MsgApp && m.term == n.term
    ensures Step(n, m) == HandleAppendEntries(n.(lead := m.from), m)
  {
    hide HandleAppendEntries, Hup, HandleVoteRequest;
  }

  /** The entries are written where they differ; nothing committed is touched, because what precedes them is. */
  lemma MergedAs(n: NodeState, m: Message) returns (log: seq<Entry>)
    requires n.committed <= m.index && Contiguous(m.entries, m.index + 1) && HasBefore(n.log, m.index, m.logTerm)
    ensures Overwritten(n.log, m.index, m.entries, log)
    ensures var last := m.index + |m.entries|;
            MaybeAppend(n.log, n.committed, m.index, m.logTerm, m.commit, m.entries)
            == Appended(log, if m.commit <= n.committed then n.committed
                             else if m.commit <= last then m.commit else last,
                        last)
  {
    hide Overwritten, MaybeAppend, FindConflict, Contiguous;
    FindConflictExact(n.log, m.entries, m.index + 1);
    log := Merge(n.log, m.index, m.entries);
    MergeOverwrites(n.log, m.index, m.entries);
    FittingIsAppended(n.log, n.committed, m.index, m.logTerm, m.commit, m.entries);
  }

  lemma FittingIsAppended(log: seq<Entry>, committed: nat, index: nat, logTerm: nat, commit: nat, es: seq<Entry>)
    requires committed <= index <= |log| && Contiguous(es, index + 1) && HasBefore(log, index, logTerm)
    requires FindConflict(log, es) == 0 || FindConflict(log, es) > index
    ensures var last := index + |es|;
            MaybeAppend(log, committed, index, logTerm, commit, es)
            == Appended(Merge(log, index, es),
                        if commit <= committed then committed else if commit <= last then commit else last, last)
  {
    hide Merge, FindConflict, Contiguous;
  }

  lemma MergeOverwrites(log: seq<Entry>, index: nat, es: seq<Entry>)
    requires Contiguous(es, index + 1) && index <= |log|
    ensures Overwritten(log, index, es, Merge(log, index, es))
  {
    hide FirstDiffers, FindConflict, Contiguous;
    FindConflictExact(log, es, index + 1);
    var ci := FindConflict(log, es);
    if ci == 0 {
      AllMatch(log, index, es, |es|);
    } else {
      ConflictDiffers(log, index, es);
    }
  }

  lemma AllMatch(log: seq<Entry>, index: nat, es: seq<Entry>, n: nat)
    requires n <= |es| && index + n <= |log|
    requires forall k :: 0 <= k < n ==> MatchTerm(log, index + 1 + k, es[k].term)
    ensures forall k :: 0 <= k < n ==> log[index + k].term == es[k].term
  {
    forall k | 0 <= k < n ensures log[index + k].term == es[k].term {
      assert MatchTerm(log, index + 1 + k, es[k].term);
    }
  }

  lemma ConflictDiffers(log: seq<Entry>, index: nat, es: seq<Entry>)
    requires Contiguous(es, index + 1) && index <= |log| && FindConflict(log, es) != 0
    ensures var ci := FindConflict(log, es);
            && index < ci <= index + |es| && FirstDiffers(log, index, es, ci - (index + 1))
            && !(index + |es| <= |log| && forall k :: 0 <= k < |es| ==> log[index + k].term == es[k].term)
  {
    hide FindConflict, Contiguous;
    FindConflictExact(log, es, index + 1);
    var c := FindConflict(log, es) - (index + 1);
    AllMatch(log, index, es, c);
    assert !MatchTerm(log, index + 1 + c, es[c].term);
  }

  lemma HandlesFitting(n: NodeState, m: Message)
    requires n.committed <= m.index && Contiguous(m.entries, m.index + 1)
    requires MaybeAppend(n.log, n.committed, m.index, m.logTerm, m.commit, m.entries).Appended?
    ensures var a := MaybeAppend(n.log, n.committed, m.index, m.logTerm, m.commit, m.entries);
            HandleAppendEntries(n, m)
            == n.(log := a.log, committed := a.committed,
                  msgsAfterAppend := n.msgsAfterAppend + [Answer(n, m, a.lastnewi)])
  {
    hide MaybeAppend, FindConflictByTerm;
  }

  /** Any other append is rejected with the largest position that could match instead. */
  lemma AppendIsRejected(n: NodeState, m: Message) returns (i: nat)
    requires n.role == StateFollower && m.mtype == MsgApp && m.term == n.term && n.committed <= m.index
    requires Contiguous(m.entries, m.index + 1) && !HasBefore(n.log, m.index, m.logTerm)
    ensures LargestAtMost(n.log, if m.index < |n.log| then m.index else |n.log|, m.logTerm, i)
    ensures Step(n, m)
            == n.(lead := m.from, msgsAfterAppend := n.msgsAfterAppend +
                    [Message(MsgAppResp, m.from, n.id, n.term, if i == 0 then 0 else n.log[i - 1].term, m.index, [], 0,
                             true, i)])
  {
    hide FindConflictByTerm, Step, MaybeAppend;
    StepIsAppend(n, m);
    var at := if m.index < |n.log| then m.index else |n.log|;
    i := FindConflictByTerm(n.log, at, m.logTerm).0;
    HintIsLargest(n.log, at, m.logTerm);
    UnfitIsMismatch(n, m);
  }

  lemma UnfitIsMismatch(n: NodeState, m: Message)
    requires Contiguous(m.entries, m.index + 1) && !HasBefore(n.log, m.index, m.logTerm)
    ensures MaybeAppend(n.log, n.committed, m.index, m.logTerm, m.commit, m.entries) == Mismatch
  {
    hide FindConflict, Merge;
  }

  lemma HintIsLargest(log: seq<Entry>, at: nat, term: nat)
    requires at <= |log|
    ensures var (i, t) := FindConflictByTerm(log, at, term);
            LargestAtMost(log, at, term, i) && t == (if i == 0 then 0 else log[i - 1].term)
  {
    FindConflictByTermIsLargest(log, at, term);
    var i := FindConflictByTerm(log, at, term).0;
    forall j: nat | i < j <= at ensures TooNew(log, j, term) {
      assert !CouldMatch(log, j, term);
    }
  }

  /** A heartbeat makes its sender the known leader and is answered. */
  lemma BeatIsAnswered(n: NodeState, m: Message)
    requires n.role == StateFollower && m.mtype == MsgHeartbeat && m.term == n.term && m.from != n.id
    ensures Step(n, m)
            == n.(lead := m.from, msgs := n.msgs + [Message(MsgHeartbeatResp, m.from, n.id, n.term, 0, 0, [], 0, false, 0)])
  {
    hide HandleAppendEntries, Hup, HandleVoteRequest;
  }

  /** A candidate that hears from a leader of its own term follows it; it drops the entries of an append. */
  lemma CandidateYields(n: NodeState, m: Message)
    requires (n.role == StateCandidate || n.role == StatePreCandidate) && m.term == n.term && m.from != n.id
    requires m.mtype == MsgApp || m.mtype == MsgHeartbeat || m.mtype == MsgSnap
    ensures Step(n, m)
            == SteppedDown(n).(lead := m.from,
                               msgs := if m.mtype != MsgHeartbeat then n.msgs
                                       else n.msgs + [Message(MsgHeartbeatResp, m.from, n.id, n.term, 0, 0, [], 0, false, 0)])
  {
    hide HandleVoteResponse, Hup, HandleVoteRequest, Reset;
    StepsDown(n);
    assert BecomeFollower(n, n.term, m.from) == BecomeFollower(n, n.term, NONE).(lead := m.from);
  }

  /** A follower hands a proposal on to the leader it knows, with the sender it came from. */
  lemma ProposalIsForwarded(n: NodeState, m: Message)
    requires n.role == StateFollower && m.mtype == MsgProp && m.term == 0 && n.lead != n.id
    ensures Step(n, m)
            == if n.lead == NONE then n
               else n.(msgs := n.msgs + [m.(to := n.lead, from := if m.from == NONE then n.id else m.from)])
  {
    hide HandleAppendEntries, Hup, HandleVoteRequest;
  }

  /** Whatever else arrives in the node's own term changes nothing. */
  lemma OthersAreIgnored(n: NodeState, m: Message)
    requires m.term == n.term || m.term == 0
    requires match n.role
             case StateLeader => m.mtype in {MsgApp, MsgSnap, MsgHeartbeat, MsgHeartbeatResp, MsgVoteResp, MsgPreVoteResp, MsgCheckQuorum}
                                 || (m.mtype == MsgAppResp && m.from !in n.tracked.trk)
             case StateFollower => m.mtype in {MsgBeat, MsgSnap, MsgAppResp, MsgHeartbeatResp, MsgVoteResp, MsgPreVoteResp, MsgCheckQuorum}
             case StateCandidate => m.mtype in {MsgBeat, MsgProp, MsgAppResp, MsgHeartbeatResp, MsgPreVoteResp, MsgCheckQuorum}
             case StatePreCandidate => m.mtype in {MsgBeat, MsgProp, MsgAppResp, MsgHeartbeatResp, MsgVoteResp, MsgCheckQuorum}
    ensures Step(n, m) == n
  {
    hide HandleAppendEntries, Hup, HandleVoteRequest, HandleVoteResponse, HandleProposal, HandleAppendResponse, BcastHeartbeat;
  }
}
