/** What is committed stays as it is, whatever a node is sent. */
module CommittedPrefix {
  import opened RaftTypes
  import opened LogSpec
  import opened Quorum
  import opened Tracker
  import opened ConfChange
  import opened RaftSpec
  import opened Queues

  ghost predicate LogOk(n: NodeState) { n.committed <= |n.log| && Contiguous(n.log, 1) }

  ghost predicate SameLog(n: NodeState, r: NodeState) { r.log == n.log && r.committed == n.committed }

  /** The commit index moves only forward, and the entries up to it stay. */
  ghost predicate CommitStays(n: NodeState, r: NodeState) {
    LogOk(r) && n.committed <= r.committed && n.committed <= |n.log| && r.log[..n.committed] == n.log[..n.committed]
  }

  lemma SameStays(n: NodeState, r: NodeState)
    requires LogOk(n) && SameLog(n, r)
    ensures CommitStays(n, r)
  {
  }

  lemma StaysTrans(a: NodeState, b: NodeState, c: NodeState)
    requires CommitStays(a, b) && CommitStays(b, c)
    ensures CommitStays(a, c)
  {
    assert c.log[..b.committed][..a.committed] == c.log[..a.committed];
    assert b.log[..b.committed][..a.committed] == b.log[..a.committed];
  }

  lemma MaybeSendSame(n: NodeState, to: nat, sendIfEmpty: bool)
    ensures SameLog(n, MaybeSendAppend(n, to, sendIfEmpty).0)
  {
    hide EntriesFor, AppMsg;
  }

  lemma {:induction false} AppendToAllSame(n: NodeState, ids: seq<nat>, sendIfEmpty: bool)
    ensures SameLog(n, AppendToAll(n, ids, sendIfEmpty))
    decreases |ids|
  {
    hide MaybeSendAppend;
    if ids != [] {
      MaybeSendSame(n, ids[0], sendIfEmpty);
      AppendToAllSame(if ids[0] == n.id then n else MaybeSendAppend(n, ids[0], sendIfEmpty).0, ids[1..], sendIfEmpty);
    }
  }

  lemma {:induction false} BeatsSame(n: NodeState, ids: seq<nat>)
    ensures SameLog(n, HeartbeatToAll(n, ids))
    decreases |ids|
  {
    if ids != [] {
      BeatsSame(if ids[0] == n.id then n else SendHeartbeat(n, ids[0]), ids[1..]);
    }
  }

  lemma {:induction false} RequestsSame(n: NodeState, ids: seq<nat>, t: MessageType, term: nat)
    requires t == MsgVote || t == MsgPreVote
    ensures SameLog(n, RequestVotes(n, ids, t, term))
    decreases |ids|
  {
    if ids != [] {
      RequestsSame(Request(n, ids[0], t, term), ids[1..], t, term);
    }
  }

  lemma CampaignSame(n: NodeState, pre: bool)
    ensures SameLog(n, Campaign(n, pre))
  {
    hide RequestVotes;
    var ids := SortedIds(n.tracked.cfg.voters.incoming + n.tracked.cfg.voters.outgoing);
    RequestsSame(BecomePreCandidate(n), ids, MsgPreVote, n.term + 1);
    RequestsSame(BecomeCandidate(n), ids, MsgVote, BecomeCandidate(n).term);
  }

  lemma AppendStays(n: NodeState, es: seq<Entry>)
    requires LogOk(n)
    ensures CommitStays(n, AppendEntry(n, es))
  {
  }

  lemma WinStays(n: NodeState)
    requires LogOk(n)
    ensures CommitStays(n, BcastAppend(BecomeLeader(n)))
  {
    hide AppendToAll, AppendEntry;
    if n.role != StateFollower && n.id in n.tracked.trk {
      var n1 := Reset(n, n.term).(lead := n.id, role := StateLeader);
      var pr := n1.tracked.trk[n.id].BecomeReplicate().(recentActive := true);
      AppendStays(SetProgress(n1, n.id, pr).(pendingConfIndex := |n.log|), [EMPTY_ENTRY]);
    }
    var l := BecomeLeader(n);
    AppendToAllSame(l, SortedIds(l.tracked.trk.Keys), true);
    SameStays(l, BcastAppend(l));
    StaysTrans(n, l, BcastAppend(l));
  }

  lemma CountStays(n: NodeState, m: Message)
    requires LogOk(n)
    ensures CommitStays(n, HandleVoteResponse(n, m))
  {
    hide BcastAppend, BecomeLeader, Campaign, JointVote;
    var n1 := RecordVote(n, m.from, !m.reject);
    WinStays(n1);
    CampaignSame(n1, false);
  }

  lemma FollowerAppendStays(n: NodeState, m: Message)
    requires LogOk(n)
    ensures CommitStays(n, HandleAppendEntries(n, m))
  {
    hide MaybeAppend, FindConflictByTerm;
    if m.index >= n.committed && Contiguous(m.entries, m.index + 1)
       && MaybeAppend(n.log, n.committed, m.index, m.logTerm, m.commit, m.entries).Appended? {
      MaybeAppendSound(n.log, n.committed, m.index, m.logTerm, m.commit, m.entries);
    }
  }

  lemma AckSame(n: NodeState, m: Message)
    requires m.from in n.tracked.trk
    ensures SameLog(n, HandleAppendResponse(n, m))
  {
    hide MaybeSendAppend, BcastAppend;
    var pr := n.tracked.trk[m.from].(recentActive := true);
    var n1 := SetProgress(n, m.from, Unblocked(pr.MaybeUpdate(m.index).0));
    var n2 := if pr.IsPaused() then SendAppend(n1, m.from) else n1;
    MaybeSendSame(n1, m.from, true);
    MaybeSendSame(n2, m.from, false);
  }

  lemma ProposalStays(n: NodeState, m: Message)
    requires LogOk(n)
    ensures CommitStays(n, HandleProposal(n, m))
  {
    hide AppendEntry, AppendToAll, Screen;
    var (es, pending) := Screen(m.entries, n.pendingConfIndex, n.applied, |n.log|, Joint(n.tracked.cfg));
    var a := AppendEntry(n.(pendingConfIndex := pending), es);
    AppendStays(n.(pendingConfIndex := pending), es);
    AppendToAllSame(a, SortedIds(a.tracked.trk.Keys), true);
    SameStays(a, BcastAppend(a));
    StaysTrans(n, a, BcastAppend(a));
  }

  lemma LeaderStays(n: NodeState, m: Message)
    requires LogOk(n)
    ensures CommitStays(n, StepLeader(n, m))
  {
    hide HandleProposal, HandleAppendResponse, HeartbeatToAll;
    match m.mtype {
      case MsgBeat => BeatsSame(n, SortedIds(n.tracked.trk.Keys));
      case MsgProp => ProposalStays(n, m);
      case MsgAppResp =>
        if m.from in n.tracked.trk {
          AckSame(n, m);
        }
      case _ =>
    }
  }

  lemma CandidateStays(n: NodeState, m: Message)
    requires LogOk(n)
    ensures CommitStays(n, StepCandidate(n, m))
  {
    hide HandleVoteResponse, HandleHeartbeat, BecomeFollower, Contiguous;
    CountStays(n, m);
    var f := BecomeFollower(n, m.term, m.from);
    FollowsSame(n, m.term, m.from);
    BeatSame(f, m);
  }

  lemma FollowsSame(n: NodeState, term: nat, lead: nat)
    ensures SameLog(n, BecomeFollower(n, term, lead))
  {
  }

  lemma BeatSame(n: NodeState, m: Message)
    ensures SameLog(n, HandleHeartbeat(n, m))
  {
  }

  lemma FollowerStays(n: NodeState, m: Message)
    requires LogOk(n)
    ensures CommitStays(n, StepFollower(n, m))
  {
    hide HandleAppendEntries;
    FollowerAppendStays(n.(lead := m.from), m);
  }

  lemma HupSame(n: NodeState)
    ensures SameLog(n, Hup(n))
  {
    hide Campaign;
    CampaignSame(n, n.preVote);
  }

  lemma VoteSame(n: NodeState, m: Message)
    requires m.mtype == MsgVote || m.mtype == MsgPreVote
    ensures SameLog(n, HandleVoteRequest(n, m))
  {
    hide CanVote, UpToDate;
  }

  lemma DispatchStays(n: NodeState, m: Message)
    requires LogOk(n)
    ensures CommitStays(n, Dispatch(n, m))
  {
    hide StepLeader, StepCandidate, StepFollower, Hup, HandleVoteRequest, Contiguous;
    HupSame(n);
    if m.mtype == MsgVote || m.mtype == MsgPreVote {
      VoteSame(n, m);
    }
    LeaderStays(n, m);
    CandidateStays(n, m);
    FollowerStays(n, m);
  }

  /** No message, whatever is in it, changes the committed part of a log. */
  lemma StepStays(n: NodeState, m: Message)
    requires LogOk(n)
    ensures CommitStays(n, Step(n, m))
  {
    hide Dispatch;
    var f := BecomeFollower(n, m.term, if FromLeader(m) then m.from else NONE);
    DispatchStays(n, m);
    DispatchStays(f, m);
  }

  lemma ApplyStays(n: NodeState, ccs: seq<ConfChangeSingle>)
    requires LogOk(n)
    ensures CommitStays(n, ApplyConfChange(n, ccs))
  {
    hide AppendToAll, BcastAppend;
    var t := Simple(n.tracked, |n.log|, ccs);
    if t.Some? {
      AppendToAllSame(n.(tracked := t.value), SortedIds(t.value.trk.Keys), false);
    }
  }
}

/** What the node loop hands to the application, and what the application makes of it. */
module Handover {
  import opened RaftTypes
  import opened LogSpec
  import opened Quorum
  import opened Tracker
  import opened ConfChange
  import opened RaftSpec
  import opened Queues
  import opened NodeLoop
  import opened CommittedPrefix
  import Apply

  // ---------------------------------------------------------------------
  // What is in a Ready.

  /** The first committed entries, as many as fit, and one at least if there is any. */
  ghost predicate CommittedPart(n: NodeState, maxApplying: pos, es: seq<Entry>) {
    var top := if n.committed <= |n.log| then n.committed else |n.log|;
    && |es| <= top && es == n.log[..|es|]
    && (top > 0 ==> |es| > 0)
    && (|es| <= 1 || EntsSize(es) <= maxApplying)
    && (|es| < top ==> EntsSize(n.log[..|es| + 1]) > maxApplying)
  }

  lemma PartOfReady(n: NodeState, maxApplying: pos)
    ensures CommittedPart(n, maxApplying, ReadyOf(n, maxApplying).committed)
  {
    var top := if n.committed <= |n.log| then n.committed else |n.log|;
    var all := n.log[..top];
    LimitSizeIsLongest(all, maxApplying);
    var k := |LimitSize(all, maxApplying)|;
    assert all[..k] == n.log[..k];
    if k < top {
      assert !Fits(all, k + 1, maxApplying);
      assert all[..k + 1] == n.log[..k + 1];
    }
  }

  /**
   * At the top of the loop a Ready is offered exactly when messages wait and no Ready is open. It carries the whole
   * log, the committed part, and first the messages that may go at once, then those that waited for the log.
   */
  lemma ReadyIsComplete(trace: seq<State>, maxApplying: pos, k: nat)
    requires LoopRun(trace, maxApplying) && k < |trace|
    ensures var (l, n) := (Top(trace[k].loop, maxApplying), trace[k].loop.raft);
            && l.raft == n
            && (l.readyc <==> !l.advancec && (n.msgs != [] || n.msgsAfterAppend != []))
            && (l.readyc ==>
                  && l.rd.entries == n.log && CommittedPart(n, maxApplying, l.rd.committed)
                  && l.rd.messages == n.msgs + Keep(n.msgsAfterAppend, ToOthers(n.id)))
  {
    LoopRunInv(trace, maxApplying, k);
    TopFresh(trace[k].loop, maxApplying);
    PartOfReady(trace[k].loop.raft, maxApplying);
  }

  // ---------------------------------------------------------------------
  // The committed parts of all Readys are runs of one log.

  lemma {:induction false} StepAllStays(n: NodeState, ms: seq<Message>)
    requires LogOk(n)
    ensures CommitStays(n, StepAll(n, ms))
    decreases |ms|
  {
    hide Step;
    if ms != [] {
      StepStays(n, ms[0]);
      StepAllStays(Step(n, ms[0]), ms[1..]);
      StaysTrans(n, Step(n, ms[0]), StepAll(n, ms));
    } else {
      SameStays(n, n);
    }
  }

  lemma ArmStays(l: Loop, e: Select)
    requires LogOk(l.raft)
    ensures CommitStays(l.raft, Arm(l, e).raft)
  {
    hide Step, StepAll, ApplyConfChange, CommitStays, LogOk;
    var n := l.raft;
    SameStays(n, n);
    match e {
      case Prop(m) => StepStays(n, m.(from := n.id));
      case Recv(m) => StepStays(n, m);
      case Conf(ccs) => ApplyStays(n, ccs);
      case Tick(fires) =>
        StepStays(n, Msg(MsgBeat, 0).(from := n.id));
        StepStays(n, Msg(MsgHup, 0).(from := n.id));
      case TakeReady => SameStays(n, Arm(l, e).raft);
      case Adv => StepAllStays(n, l.stepsOnAdvance);
      case Status =>
    }
  }

  /** Every accepted Ready carries the first entries of the log as it is now. */
  ghost predicate Delivers(n: NodeState, rd: Ready) {
    |rd.committed| <= n.committed <= |n.log| && rd.committed == n.log[..|rd.committed|]
  }

  ghost predicate AllDeliver(s: State) {
    LogOk(s.loop.raft) && forall k :: 0 <= k < |s.hist.out| ==> Delivers(s.loop.raft, s.hist.out[k])
  }

  lemma DeliversLater(n: NodeState, r: NodeState, rd: Ready)
    requires Delivers(n, rd) && CommitStays(n, r)
    ensures Delivers(r, rd)
  {
    var k := |rd.committed|;
    assert r.log[..n.committed][..k] == r.log[..k] && n.log[..n.committed][..k] == n.log[..k];
  }

  lemma TurnDelivers(s: State, e: Select, s': State, maxApplying: pos)
    requires LoopInv(s) && AllDeliver(s) && LoopNext(s, e, s', maxApplying)
    ensures AllDeliver(s')
  {
    hide Step, StepAll, ApplyConfChange, TickStep, Conserved, QueuesTyped, Delivers, CommitStays, LogOk;
    var l := Top(s.loop, maxApplying);
    TopFresh(s.loop, maxApplying);
    ArmStays(l, e);
    forall k | 0 <= k < |s'.hist.out| ensures Delivers(s'.loop.raft, s'.hist.out[k]) {
      if k < |s.hist.out| {
        DeliversLater(s.loop.raft, s'.loop.raft, s.hist.out[k]);
      } else {
        FreshDelivers(s.loop.raft, maxApplying);
        DeliversLater(s.loop.raft, s'.loop.raft, s'.hist.out[k]);
      }
    }
    StaysOk(l.raft, s'.loop.raft);
  }

  lemma StaysOk(n: NodeState, r: NodeState)
    requires CommitStays(n, r)
    ensures LogOk(r)
  {
  }

  lemma FreshDelivers(n: NodeState, maxApplying: pos)
    requires LogOk(n)
    ensures Delivers(n, ReadyOf(n, maxApplying))
  {
    PartOfReady(n, maxApplying);
  }

  lemma {:induction false} RunDelivers(trace: seq<State>, maxApplying: pos, k: nat)
    requires LoopRun(trace, maxApplying) && k < |trace| && LogOk(trace[0].loop.raft)
    ensures AllDeliver(trace[k])
  {
    hide LoopNext, LoopInv, LogOk;
    if k > 0 {
      RunDelivers(trace, maxApplying, k - 1);
      LoopRunInv(trace, maxApplying, k - 1);
      assert LoopStepAt(trace, k - 1, maxApplying);
      var e :| LoopNext(trace[k - 1], e, trace[k], maxApplying);
      TurnDelivers(trace[k - 1], e, trace[k], maxApplying);
    }
  }

  // ---------------------------------------------------------------------
  // The application behind the loop.

  /** The application handles the Readys one after the other; `stops[k]` says that the stop channel wins in turn k. */
  ghost function Feed(a: Apply.App, out: seq<Ready>, stops: seq<bool>, id: nat, codec: Apply.Codec): Apply.App
    requires |stops| == |out|
  {
    if out == [] then a
    else
      var b := Feed(a, out[..|out| - 1], stops[..|out| - 1], id, codec);
      var es := Apply.ToApply(b.applied, out[|out| - 1].committed);
      if b.stopped || es.None? then b else Apply.Publish(b, es.value, id, codec, stops[|out| - 1])
  }

  ghost function Batches(out: seq<Ready>, stops: seq<bool>): seq<Apply.Batch>
    requires |stops| == |out|
  {
    seq(|out|, k requires 0 <= k < |out| => Apply.Batch(0, |out[k].committed|, stops[k]))
  }

  lemma {:induction false} FeedIsHandled(a: Apply.App, log: seq<Entry>, out: seq<Ready>, stops: seq<bool>, id: nat, codec: Apply.Codec)
    requires |stops| == |out|
    requires forall k :: 0 <= k < |out| ==> |out[k].committed| <= |log| && out[k].committed == log[..|out[k].committed|]
    ensures Apply.InRange(log, Batches(out, stops))
    ensures Feed(a, out, stops, id, codec) == Apply.HandleAll(a, log, Batches(out, stops), id, codec)
  {
    hide Apply.ToApply, Apply.Publish;
    if out != [] {
      var k := |out| - 1;
      FeedIsHandled(a, log, out[..k], stops[..k], id, codec);
      assert Batches(out, stops)[..k] == Batches(out[..k], stops[..k]);
      assert log[0..|out[k].committed|] == out[k].committed;
    }
  }

  /** How far the Readys reach. */
  ghost function Reach(out: seq<Ready>): nat {
    if out == [] then 0
    else
      var before := Reach(out[..|out| - 1]);
      if |out[|out| - 1].committed| > before then |out[|out| - 1].committed| else before
  }

  lemma {:induction false} ReachCovers(out: seq<Ready>, k: nat)
    requires k < |out|
    ensures |out[k].committed| <= Reach(out)
  {
    if k < |out| - 1 {
      assert out[..|out| - 1][k] == out[k];
      ReachCovers(out[..|out| - 1], k);
    }
  }

  lemma {:induction false} FeedReaches(log: seq<Entry>, out: seq<Ready>, stops: seq<bool>, id: nat, codec: Apply.Codec)
    requires |stops| == |out| && Contiguous(log, 1)
    requires forall k :: 0 <= k < |out| ==> |out[k].committed| <= |log| && out[k].committed == log[..|out[k].committed|]
    ensures var a := Feed(Apply.App(0, [], [], false), out, stops, id, codec);
            Apply.Published(a, log, codec) && (!a.stopped ==> a.applied == Reach(out))
  {
    var start := Apply.App(0, [], [], false);
    FeedIsHandled(start, log, out, stops, id, codec);
    Apply.ExactlyOnce(log, Batches(out, stops), id, codec);
    if out != [] {
      var k := |out| - 1;
      FeedReaches(log, out[..k], stops[..k], id, codec);
      OneMoreReady(log, Feed(start, out[..k], stops[..k], id, codec), out[k].committed, id, codec, stops[k]);
    }
  }

  /** One Ready from the start of the log: what is new in it is applied, unless the application stops. */
  lemma OneMoreReady(log: seq<Entry>, a: Apply.App, es: seq<Entry>, id: nat, codec: Apply.Codec, stop: bool)
    requires Contiguous(log, 1) && |es| <= |log| && es == log[..|es|] && Apply.Published(a, log, codec)
    ensures var new_ := Apply.ToApply(a.applied, es);
            && new_.Some?
            && var r := if a.stopped then a else Apply.Publish(a, new_.value, id, codec, stop);
               !r.stopped ==> r.applied == if |es| > a.applied then |es| else a.applied
  {
    assert log[0..|es|] == es;
    Apply.NewPart(log, a.applied, 0, |es|);
    if !a.stopped && a.applied < |es| {
      Apply.PublishAdvances(a, log, |es|, id, codec, stop);
    }
  }

  /**
   * The node and its application together. Whatever the loop has handed over, the application has published exactly the
   * entries of the node's own log up to its applied index, each once and in order; unless it was stopped, that is as far
   * as any Ready went; and that never runs ahead of the commit index.
   */
  lemma AppliedFollowsLog(trace: seq<State>, maxApplying: pos, k: nat, stops: seq<bool>, id: nat, codec: Apply.Codec)
    requires LoopRun(trace, maxApplying) && k < |trace| && LogOk(trace[0].loop.raft)
    requires |stops| == |trace[k].hist.out|
    ensures var (n, out) := (trace[k].loop.raft, trace[k].hist.out);
            var a := Feed(Apply.App(0, [], [], false), out, stops, id, codec);
            && Apply.Published(a, n.log, codec)
            && (!a.stopped ==> a.applied == Reach(out))
            && (forall j {:trigger out[j]} :: 0 <= j < |out| ==> |out[j].committed| <= Reach(out) <= n.committed)
  {
    hide LoopRun, Conserved, Step;
    RunDelivers(trace, maxApplying, k);
    var n, out := trace[k].loop.raft, trace[k].hist.out;
    forall j | 0 <= j < |out| ensures |out[j].committed| <= |n.log| && out[j].committed == n.log[..|out[j].committed|] {
      assert Delivers(n, out[j]);
    }
    FeedReaches(n.log, out, stops, id, codec);
    forall j | 0 <= j < |out| ensures |out[j].committed| <= Reach(out) <= n.committed {
      ReachCovers(out, j);
      ReachWithin(n, out);
    }
  }

  lemma {:induction false} ReachWithin(n: NodeState, out: seq<Ready>)
    requires forall k :: 0 <= k < |out| ==> Delivers(n, out[k])
    ensures Reach(out) <= n.committed
  {
    if out != [] {
      assert Delivers(n, out[|out| - 1]);
      ReachWithin(n, out[..|out| - 1]);
    }
  }
}

/** What single turns of the loop do, seen from outside. */
module Turns {
  import opened RaftTypes
  import opened LogSpec
  import opened Quorum
  import opened Tracker
  import opened ConfChange
  import opened RaftSpec
  import opened Reactions
  import opened Exchanges
  import opened NodeLoop

  /** A heartbeat timeout at a leader: one heartbeat to each other peer. */
  lemma LeaderTicks(l: Loop, maxApplying: pos) returns (out: seq<Message>)
    requires l.raft.role == StateLeader
    ensures Turn(l, Tick(true), maxApplying).raft == l.raft.(msgs := l.raft.msgs + out)
    ensures OnePer(out, l.raft.tracked.trk.Keys - {l.raft.id}, m => BeatTo(l.raft, m))
  {
    hide Step, OnePer, BeatTo;
    out := BeatIsSent(l.raft, Msg(MsgBeat, 0).(from := l.raft.id));
  }

  lemma TimeoutIs(l: Loop, maxApplying: pos)
    requires l.raft.role != StateLeader
    ensures var n := l.raft;
            Turn(l, Tick(true), maxApplying).raft
            == if n.id in n.tracked.trk && !n.tracked.trk[n.id].isLearner then Step(n, Msg(MsgHup, 0).(from := n.id)) else n
  {
    hide Step;
  }

  /** An election timeout at any other node: a campaign, if the node is a voter. */
  lemma OthersTick(l: Loop, maxApplying: pos) returns (out: seq<Message>)
    requires l.raft.role != StateLeader
    ensures var (n, r) := (l.raft, Turn(l, Tick(true), maxApplying).raft);
            && n.id == r.id && n.log == r.log && n.committed == r.committed && r.msgs == n.msgs + out
            && if n.id !in n.tracked.trk || n.tracked.trk[n.id].isLearner then r == n && out == []
               else if n.preVote then r.role == StatePreCandidate && r.term == n.term && r.vote == n.vote
               else r.role == StateCandidate && r.term == n.term + 1 && r.vote == n.id
    ensures var n := l.raft;
            n.id in n.tracked.trk && !n.tracked.trk[n.id].isLearner ==>
              OnePer(out, Voters(n) - {n.id}, m => AsksFor(n, if n.preVote then MsgPreVote else MsgVote, n.term + 1, m))
  {
    hide Step, OnePer, AsksFor, Turn, Restarted, OwnVote;
    var n := l.raft;
    TimeoutIs(l, maxApplying);
    if n.id !in n.tracked.trk || n.tracked.trk[n.id].isLearner {
      out := [];
      assert n.msgs + [] == n.msgs;
    } else {
      out := HupCampaigns(n, Msg(MsgHup, 0).(from := n.id));
    }
  }

  /** Before the timeout nothing happens. */
  lemma EarlyTick(l: Loop, maxApplying: pos)
    ensures Turn(l, Tick(false), maxApplying).raft == l.raft
  {
  }

  /** A response from a node that is not tracked is dropped; any other message is stepped. */
  lemma StrangersAreIgnored(l: Loop, m: Message, maxApplying: pos)
    ensures var response := m.mtype in {MsgAppResp, MsgVoteResp, MsgHeartbeatResp, MsgPreVoteResp};
            Turn(l, Recv(m), maxApplying).raft ==
              if response && m.from !in l.raft.tracked.trk
                 && m.from != 0xffff_ffff_ffff_ffff && m.from != 0xffff_ffff_ffff_fffe then l.raft
              else Step(l.raft, m)
  {
    hide Step;
  }

  /** Proposals are taken only while a leader is known. */
  ghost predicate ProposalsOk(l: Loop) { l.propc ==> l.lead != NONE }

  lemma ProposalsNeedLeader(l: Loop, e: Select, maxApplying: pos)
    requires ProposalsOk(l) && Enabled(Top(l, maxApplying), e)
    ensures ProposalsOk(Turn(l, e, maxApplying))
    ensures e.Prop? ==> l.raft.lead != NONE
    // a leader that has just become known opens the channel
    ensures l.raft.lead != NONE && l.raft.lead != l.lead ==> Top(l, maxApplying).propc
  {
    hide Step, StepAll, ApplyConfChange, TickStep;
  }

  /** A node that has been removed from all voters takes no proposals until it hears of another leader. */
  lemma RemovedTakesNone(l: Loop, ccs: seq<ConfChangeSingle>, maxApplying: pos, later: Loop)
    requires var (n, r) := (l.raft, Turn(l, Conf(ccs), maxApplying).raft);
             n.id in n.tracked.trk && n.id !in r.tracked.trk
             && n.id !in r.tracked.cfg.voters.incoming && n.id !in r.tracked.cfg.voters.outgoing
    requires var t := Turn(l, Conf(ccs), maxApplying);
             later.lead == t.lead && later.propc == t.propc && later.raft.lead == t.lead
    ensures !Enabled(Top(later, maxApplying), Prop(Msg(MsgProp, 0)))
  {
    hide ApplyConfChange;
  }

  lemma ConfIsStepped(l: Loop, ccs: seq<ConfChangeSingle>, maxApplying: pos)
    ensures Turn(l, Conf(ccs), maxApplying).raft == ApplyConfChange(l.raft, ccs)
  {
    hide ApplyConfChange;
  }

  lemma SentKeeps(n: NodeState, ids: set<nat>, out: seq<Message>)
    ensures var r := Sent(n, ids, out);
            && r.tracked.cfg == n.tracked.cfg && r.msgs == n.msgs + out
            && r.log == n.log && r.role == n.role && r.term == n.term
  {
  }

  /** The configuration arm installs what the change leads to. */
  lemma ConfIsInstalled(l: Loop, ccs: seq<ConfChangeSingle>, maxApplying: pos) returns (out: seq<Message>)
    requires Simple(l.raft.tracked, |l.raft.log|, ccs).Some?
    requires PeersInReach(l.raft.(tracked := Simple(l.raft.tracked, |l.raft.log|, ccs).value))
    ensures var (n, r) := (l.raft, Turn(l, Conf(ccs), maxApplying).raft);
            && r.tracked.cfg == Simple(n.tracked, |n.log|, ccs).value.cfg && r.msgs == n.msgs + out
            && r.log == n.log && r.role == n.role && r.term == n.term
  {
    hide Simple, OnePer, AppendTo, AllServed, ApplyConfChange, Turn, PeersInReach, Sent;
    var n := l.raft;
    ConfIsStepped(l, ccs, maxApplying);
    out := ConfIsApplied(n, ccs);
    var r := n.(tracked := Simple(n.tracked, |n.log|, ccs).value);
    SentKeeps(r, AllServed(r, false, r.tracked.trk.Keys), out);
    if ApplyConfChange(n, ccs) == n.(tracked := Simple(n.tracked, |n.log|, ccs).value) {
      out := [];
      assert n.msgs + [] == n.msgs;
    }
  }
}
