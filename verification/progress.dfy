/** The deployment gets somewhere: any peer can be elected, and what it is then proposed can reach every log. */
module Progressing {
  import opened RaftTypes
  import opened LogSpec
  import opened Quorum
  import opened Tracker
  import opened ConfChange
  import opened ConfEntry
  import opened RaftSpec
  import opened NodeLoop
  import opened Cluster
  import opened Invariant
  import opened Deployed
  import opened Reactions
  import opened Exchanges
  import opened Proposals
  import Provenance
  import Origins
  import Safety
  import Witness

  // ---------------------------------------------------------------------
  // Turns.

  ghost function After(s: System, i: nat, e: Select, maxApplying: pos): System
    requires i in s.loops
  {
    s.(loops := s.loops[i := Turn(s.loops[i], e, maxApplying)],
       released := s.released + Elements(Released(Top(s.loops[i], maxApplying), e)))
  }

  lemma OneTurn(trace: seq<System>, peers: seq<nat>, payload: nat -> seq<byte>, maxApplying: pos, i: nat, e: Select)
    returns (longer: seq<System>)
    requires SystemRun(trace, peers, payload, maxApplying)
    requires i in trace[|trace| - 1].loops
    requires Offered(trace[|trace| - 1], i, e) && Enabled(Top(trace[|trace| - 1].loops[i], maxApplying), e)
    ensures SystemRun(longer, peers, payload, maxApplying) && longer != []
    ensures longer[|longer| - 1] == After(trace[|trace| - 1], i, e, maxApplying)
  {
    hide SystemInit, Turn, Top, Offered, Enabled;
    var s := trace[|trace| - 1];
    var s' := After(s, i, e, maxApplying);
    longer := trace + [s'];
    assert SystemNext(s, i, e, s', maxApplying);
    forall k: nat | k + 1 < |longer| ensures SystemStepAt(longer, k, maxApplying) {
      if k + 1 < |trace| {
        assert SystemStepAt(trace, k, maxApplying) && longer[k] == trace[k] && longer[k + 1] == trace[k + 1];
      } else {
        assert longer[k] == s && longer[k + 1] == s';
      }
    }
  }

  /** Nothing is queued, kept or open. */
  ghost predicate Calm(l: Loop) {
    l.raft.msgs == [] && l.raft.msgsAfterAppend == [] && l.stepsOnAdvance == [] && !l.readyc && !l.advancec
  }

  /** A message from the network, on a loop that is calm. */
  lemma Receives(l: Loop, m: Message, maxApplying: pos)
    requires Calm(l) && m.from in l.raft.tracked.trk
    ensures var r := Turn(l, Recv(m), maxApplying);
            && r.raft == Step(l.raft, m) && r.stepsOnAdvance == [] && !r.readyc && !r.advancec
            && r.lead == l.raft.lead
  {
    hide Step;
  }

  /** What accepting the Ready and advancing past it leave of a loop, and what they release. */
  ghost predicate HandsOver(s: System, i: nat, r: System)
    requires i in s.loops
  {
    var n := s.loops[i].raft;
    && i in r.loops && r.loops == s.loops[i := r.loops[i]] && r.peers == s.peers && r.boot == s.boot
    && r.released == s.released + Elements(n.msgs) + Elements(Keep(n.msgsAfterAppend, ToOthers(n.id)))
    && r.loops[i].raft == StepAll(n.(msgs := [], msgsAfterAppend := []), Keep(n.msgsAfterAppend, ToSelf(n.id)))
    && r.loops[i].stepsOnAdvance == [] && !r.loops[i].readyc && !r.loops[i].advancec
    && r.loops[i].lead == n.lead
  }

  lemma HandOver(trace: seq<System>, peers: seq<nat>, payload: nat -> seq<byte>, maxApplying: pos, i: nat)
    returns (longer: seq<System>)
    requires SystemRun(trace, peers, payload, maxApplying) && i in trace[|trace| - 1].loops
    requires var l := trace[|trace| - 1].loops[i]; !l.advancec && l.stepsOnAdvance == [] && HasReady(l.raft)
    ensures SystemRun(longer, peers, payload, maxApplying) && HandsOver(trace[|trace| - 1], i, longer[|longer| - 1])
  {
    hide SystemInit, Turn, Top, Released, Enabled, Keep, StepAll;
    var s := trace[|trace| - 1];
    var l := s.loops[i];
    LoopHandsOver(l, maxApplying);
    var mid := OneTurn(trace, peers, payload, maxApplying, i, TakeReady);
    longer := OneTurn(mid, peers, payload, maxApplying, i, Adv);
    ElementsJoin(l.raft.msgs, Keep(l.raft.msgsAfterAppend, ToOthers(l.raft.id)));
    assert Elements([]) == {};
  }

  lemma LoopHandsOver(l: Loop, maxApplying: pos)
    requires !l.advancec && l.stepsOnAdvance == [] && HasReady(l.raft)
    ensures var n := l.raft;
            var t := Turn(l, TakeReady, maxApplying);
            var r := Turn(t, Adv, maxApplying);
            && Enabled(Top(l, maxApplying), TakeReady) && Enabled(Top(t, maxApplying), Adv)
            && Released(Top(l, maxApplying), TakeReady) == n.msgs + Keep(n.msgsAfterAppend, ToOthers(n.id))
            && Released(Top(t, maxApplying), Adv) == []
            && r.raft == StepAll(n.(msgs := [], msgsAfterAppend := []), Keep(n.msgsAfterAppend, ToSelf(n.id)))
            && r.stepsOnAdvance == [] && !r.readyc && !r.advancec && r.lead == n.lead
  {
    hide StepAll, Keep, LimitSize;
    assert [] + Keep(l.raft.msgsAfterAppend, ToSelf(l.raft.id)) == Keep(l.raft.msgsAfterAppend, ToSelf(l.raft.id));
  }

  lemma ElementsJoin(a: seq<Message>, b: seq<Message>)
    ensures Elements(a + b) == Elements(a) + Elements(b)
  {
  }

  // ---------------------------------------------------------------------
  // What holds of every node of a run.

  ghost predicate Facts(n: NodeState, v: nat, peers: seq<nat>, payload: nat -> seq<byte>) {
    && Provenance.Sound(n) && Contiguous(n.log, 1) && n.id == v
    && n.committed == |peers| && BootEntries(peers, payload) <= n.log
    && n.tracked.cfg.voters == JointConfig(Elems(peers), {}) && n.tracked.trk.Keys == Elems(peers)
  }

  lemma HasFacts(trace: seq<System>, peers: seq<nat>, payload: nat -> seq<byte>, maxApplying: pos, v: nat)
    requires SystemRun(trace, peers, payload, maxApplying) && v in trace[|trace| - 1].loops
    ensures Facts(trace[|trace| - 1].loops[v].raft, v, peers, payload)
  {
    hide Init, StepsAlong, Inv, Rel;
    var s := trace[|trace| - 1];
    var run, at := Related(trace, peers, payload, maxApplying);
    var k := at[|trace| - 1];
    Safety.RunInv(run, peers, payload, k);
    RelatedFacts(s, run[k], v);
    BootStays(run, peers, payload, k);
  }

  lemma RelatedFacts(s: System, c: Cluster, v: nat)
    requires Rel(s, c) && Inv(c) && v in s.loops
    ensures var n := s.loops[v].raft;
            && Provenance.Sound(n) && Contiguous(n.log, 1) && n.id == v && n.committed == |c.boot| && c.boot <= n.log
            && n.tracked.cfg.voters == JointConfig(c.peers, {}) && n.tracked.trk.Keys == c.peers
  {
    assert LoopRel(c, v, s.loops[v]);
    Origins.NodeIsSound(c, v);
    assert NodeOk(c, v);
    StillSound(s.loops[v].raft);
  }

  lemma StillSound(n: NodeState)
    requires Provenance.Sound(Flush(n))
    ensures Provenance.Sound(n)
  {
    assert forall v :: InReach(Flush(n), v) ==> InReach(n, v);
  }

  lemma BootStays(run: seq<Cluster>, peers: seq<nat>, payload: nat -> seq<byte>, k: nat)
    requires IsRun(run, peers, payload) && k < |run|
    ensures run[k].boot == BootEntries(peers, payload) && run[k].peers == Elems(peers)
  {
    Safety.RunEvolves(run, peers, payload, 0, k);
  }

  // ---------------------------------------------------------------------
  // The poll.

  ghost function Request(c: nat, v: nat, b: nat): Message { Message(MsgVote, v, c, 2, 1, b, [], 0, false, 0) }

  ghost function Grant(c: nat, v: nat): Message { Message(MsgVoteResp, c, v, 2, 0, 0, [], 0, false, 0) }

  /** Has the bootstrap log only, and has voted for nobody but perhaps `c` in term 2. */
  ghost predicate Follows(l: Loop, boot: seq<Entry>) {
    && Calm(l) && l.raft.role == StateFollower && l.raft.log == boot && (l.raft.term == 1 || l.raft.term == 2)
  }

  ghost predicate Fresh(l: Loop, boot: seq<Entry>) {
    Follows(l, boot) && l.raft.term == 1 && l.raft.vote == NONE
  }

  /** Candidate `c` of term 2 has the votes of `done`; its request is released, and all but `asked` have yet to see it. */
  ghost predicate Polls(s: System, c: nat, done: set<nat>, asked: set<nat>, boot: seq<Entry>, mx: nat) {
    && c in s.loops && s.loops.Keys == s.peers && done <= s.peers
    && Calm(s.loops[c]) && s.loops[c].lead == NONE
    && (var n := s.loops[c].raft;
        && n.role == StateCandidate && n.term == 2 && n.lead == NONE && n.log == boot
        && n.votes == Witness.AllTrue(done) && n.maxMsgSize == mx)
    && forall v {:trigger s.loops[v]} :: v in s.peers && v != c ==>
         && Request(c, v, |boot|) in s.released && Follows(s.loops[v], boot)
         && (v !in asked ==> Fresh(s.loops[v], boot))
  }

  ghost function OwnAck(c: nat, k: nat): Message { Message(MsgAppResp, c, c, 2, 0, k, [], 0, false, 0) }

  /** The leader knows that it holds its log up to `k`. */
  ghost predicate OwnProgress(n: NodeState, c: nat, k: nat) {
    && c in n.tracked.trk
    && var p := n.tracked.trk[c];
       p.matched == k && p.next == k + 1 && p.state == StateReplicate && !p.msgAppFlowPaused
  }

  /** A leader of term 2 whose log has gained its first entry; the others wait. */
  ghost predicate Heads(s: System, c: nat, boot: seq<Entry>, mx: nat) {
    && c in s.loops && s.loops.Keys == s.peers
    && (var l := s.loops[c];
        && l.stepsOnAdvance == [] && !l.advancec && l.lead == NONE
        && l.raft.role == StateLeader && l.raft.term == 2 && l.raft.lead == c && l.raft.maxMsgSize == mx
        && l.raft.log == boot + [Entry(2, |boot| + 1, EntryNormal, None)]
        && l.raft.msgsAfterAppend == [OwnAck(c, |boot| + 1)] && OwnProgress(l.raft, c, |boot|)
        && forall v {:trigger l.raft.tracked.trk[v]} :: v in l.raft.tracked.trk && v != c ==>
             var p := l.raft.tracked.trk[v];
             p.matched == 0 && p.next == |boot| + 1 && p.state == StateProbe)
    && forall v {:trigger s.loops[v]} :: v in s.peers && v != c ==> Follows(s.loops[v], boot)
  }

  /** The vote of `v` is counted: the candidate heads the cluster, or polls on. */
  lemma VoteArrives(n: NodeState, c: nat, done: set<nat>, v: nat, peers: seq<nat>, payload: nat -> seq<byte>)
    requires Facts(n, c, peers, payload) && n.role == StateCandidate && n.term == 2 && v in Elems(peers) && v !in done
    requires done <= Elems(peers) && n.votes == Witness.AllTrue(done)
    ensures var r := Step(n, Grant(c, v));
            || (r == n.(votes := Witness.AllTrue(done + {v})) && done + {v} != Elems(peers))
            || (exists out :: r == Sent(NewLeader(n), n.tracked.trk.Keys - {n.id}, out))
  {
    hide Step, Sent, NewLeader, OnePer, AppendTo, Wins, MayWin, Provenance.Sound;
    assert c in n.tracked.trk && n.committed <= |n.log| by { SoundFacts(n); }
    var votes := Witness.AllTrue(done + {v});
    assert Exchanges.Counted(n, Grant(c, v)) == votes;
    var out := VoteIsCounted(n, Grant(c, v));
    AllSayYes(n, Elems(peers), done + {v}, votes);
  }

  lemma SoundFacts(n: NodeState)
    requires Provenance.Sound(n)
    ensures n.id in n.tracked.trk && n.committed <= |n.log| && n.applied <= |n.log| && n.id != NONE
  {
  }

  lemma AllSayYes(n: NodeState, peers: set<nat>, done: set<nat>, votes: map<nat, bool>)
    requires n.tracked.cfg.voters == JointConfig(peers, {}) && done <= peers && done != {}
    requires votes == Witness.AllTrue(done)
    ensures MayWin(n.tracked.cfg.voters, votes)
    ensures done == peers ==> Wins(n.tracked.cfg.voters, votes)
  {
    assert NotNo(peers, votes) == peers;
    assert SaidYes(peers, votes) == done;
  }

  /** The head's own state right after the election. */
  lemma HeadsNow(n: NodeState, c: nat, out: seq<Message>, boot: seq<Entry>)
    requires n.id == c && n.term == 2 && n.log == boot && c in n.tracked.trk && n.msgsAfterAppend == []
    ensures var r := Sent(NewLeader(n), n.tracked.trk.Keys - {n.id}, out);
            && r.role == StateLeader && r.term == 2 && r.lead == c && r.id == c && r.maxMsgSize == n.maxMsgSize
            && r.log == boot + [Entry(2, |boot| + 1, EntryNormal, None)]
            && r.msgsAfterAppend == [OwnAck(c, |boot| + 1)] && OwnProgress(r, c, |boot|)
            && forall v {:trigger r.tracked.trk[v]} :: v in r.tracked.trk && v != c ==>
                 var p := r.tracked.trk[v];
                 p.matched == 0 && p.next == |boot| + 1 && p.state == StateProbe
  {
  }

  /** The other nodes, seen from the candidate. */
  ghost predicate Waiting(s: System, c: nat, asked: set<nat>, boot: seq<Entry>) {
    && s.loops.Keys == s.peers && c in s.peers
    && forall v {:trigger s.loops[v]} :: v in s.peers && v != c ==>
         Follows(s.loops[v], boot) && (v !in asked ==> Fresh(s.loops[v], boot))
  }

  ghost function WithLoop(s: System, c: nat, l: Loop, released: set<Message>): System {
    s.(loops := s.loops[c := l], released := released)
  }

  lemma BecomesHead(s: System, c: nat, asked: set<nat>, l: Loop, n: NodeState, out: seq<Message>, boot: seq<Entry>,
                    mx: nat, released: set<Message>)
    requires Waiting(s, c, asked, boot) && l.stepsOnAdvance == [] && !l.advancec && l.lead == NONE
    requires l.raft == Sent(NewLeader(n), n.tracked.trk.Keys - {n.id}, out)
    requires n.id == c && n.term == 2 && n.log == boot && c in n.tracked.trk && n.maxMsgSize == mx
    requires n.msgsAfterAppend == []
    ensures Heads(WithLoop(s, c, l, released), c, boot, mx)
  {
    hide Sent, NewLeader;
    HeadsNow(n, c, out, boot);
  }

  lemma PollsOn(s: System, c: nat, l: Loop, done: set<nat>, asked: set<nat>, boot: seq<Entry>, mx: nat, released: set<Message>)
    requires Waiting(s, c, asked, boot) && Calm(l) && l.lead == NONE && done <= s.peers
    requires var n := l.raft;
             && n.role == StateCandidate && n.term == 2 && n.lead == NONE && n.log == boot
             && n.votes == Witness.AllTrue(done) && n.maxMsgSize == mx
    requires forall v :: v in s.peers && v != c ==> Request(c, v, |boot|) in released
    ensures Polls(WithLoop(s, c, l, released), c, done, asked, boot, mx)
  {
  }

  lemma KeepOne(m: Message, kind: Kind)
    ensures Keep([m], kind) == if Is(m, kind) then [m] else []
  {
    assert [m][..0] == [] && Keep([], kind) == [];
  }

  lemma StepAllOne(n: NodeState, m: Message)
    ensures StepAll(n, [m]) == Step(n, m) && StepAll(n, []) == n
  {
    hide Step;
    assert [m][1..] == [];
  }

  lemma BootEnds(peers: seq<nat>, payload: nat -> seq<byte>)
    requires peers != []
    ensures TermAtEnd(BootEntries(peers, payload)) == 1 && |BootEntries(peers, payload)| == |peers|
  {
  }

  /** A node that has the bootstrap log only grants its vote to `c`, once. */
  lemma GrantsVote(n: NodeState, c: nat, boot: seq<Entry>)
    requires n.term == 1 && n.log == boot && TermAtEnd(boot) == 1 && n.msgsAfterAppend == []
    ensures Step(n, Request(c, n.id, |boot|))
            == InNewTerm(n, 2, NONE).(vote := c, msgsAfterAppend := [Grant(c, n.id)])
  {
    hide Step, InNewTerm;
    VoteIsAnswered(n, Request(c, n.id, |boot|));
  }

  /** The request reaches `v`, and its grant is released. */
  lemma VoterAnswers(trace: seq<System>, peers: seq<nat>, payload: nat -> seq<byte>, maxApplying: pos,
                     c: nat, done: set<nat>, v: nat, mx: nat) returns (longer: seq<System>)
    requires SystemRun(trace, peers, payload, maxApplying) && peers != []
    requires Polls(trace[|trace| - 1], c, done, done, BootEntries(peers, payload), mx)
    requires trace[|trace| - 1].peers == Elems(peers) && v in Elems(peers) && v != c && v !in done
    ensures SystemRun(longer, peers, payload, maxApplying) && longer != []
    ensures var s, r := trace[|trace| - 1], longer[|longer| - 1];
            && r.peers == s.peers && v in r.loops && r.loops == s.loops[v := r.loops[v]]
            && s.released <= r.released && Grant(c, v) in r.released && Follows(r.loops[v], BootEntries(peers, payload))
  {
    hide SystemInit, Turn, Top, Step, StepAll, Keep, SystemStepAt, Facts;
    var s, boot := trace[|trace| - 1], BootEntries(peers, payload);
    var l, m := s.loops[v], Request(c, v, |boot|);
    BootEnds(peers, payload);
    HasFacts(trace, peers, payload, maxApplying, v);
    FactsTrack(l.raft, v, peers, payload);
    Receives(l, m, maxApplying);
    GrantsVote(l.raft, c, boot);
    assert Enabled(Top(l, maxApplying), Recv(m));
    var mid := OneTurn(trace, peers, payload, maxApplying, v, Recv(m));
    longer := HandOver(mid, peers, payload, maxApplying, v);
    KeepOne(Grant(c, v), ToOthers(v));
    KeepOne(Grant(c, v), ToSelf(v));
    StepAllOne(mid[|mid| - 1].loops[v].raft.(msgs := [], msgsAfterAppend := []), m);
    assert Grant(c, v) in Elements([Grant(c, v)]);
  }

  lemma FactsTrack(n: NodeState, v: nat, peers: seq<nat>, payload: nat -> seq<byte>)
    requires Facts(n, v, peers, payload)
    ensures n.id == v && v != NONE && n.tracked.trk.Keys == Elems(peers)
  {
  }

  /** The grant reaches the candidate: it heads the cluster, or polls on. */
  lemma GrantArrives(trace: seq<System>, peers: seq<nat>, payload: nat -> seq<byte>, maxApplying: pos,
                     c: nat, done: set<nat>, v: nat, mx: nat) returns (longer: seq<System>)
    requires SystemRun(trace, peers, payload, maxApplying) && trace[|trace| - 1].peers == Elems(peers)
    requires Polls(trace[|trace| - 1], c, done, done + {v}, BootEntries(peers, payload), mx)
    requires v in Elems(peers) && v != c && v !in done && Grant(c, v) in trace[|trace| - 1].released
    ensures SystemRun(longer, peers, payload, maxApplying) && longer != []
    ensures longer[|longer| - 1].peers == Elems(peers)
    ensures Heads(longer[|longer| - 1], c, BootEntries(peers, payload), mx)
            || (done + {v} != Elems(peers)
                && Polls(longer[|longer| - 1], c, done + {v}, done + {v}, BootEntries(peers, payload), mx))
  {
    hide SystemInit, Turn, Top, Step, SystemStepAt, Facts, Sent, NewLeader, Heads, Fresh, Follows;
    var s, boot := trace[|trace| - 1], BootEntries(peers, payload);
    var l, m := s.loops[c], Grant(c, v);
    assert Waiting(s, c, done + {v}, boot);
    HasFacts(trace, peers, payload, maxApplying, c);
    FactsTrack(l.raft, c, peers, payload);
    Receives(l, m, maxApplying);
    VoteArrives(l.raft, c, done, v, peers, payload);
    assert Enabled(Top(l, maxApplying), Recv(m));
    longer := OneTurn(trace, peers, payload, maxApplying, c, Recv(m));
    if exists out :: Step(l.raft, m) == Sent(NewLeader(l.raft), l.raft.tracked.trk.Keys - {c}, out) {
      var out :| Step(l.raft, m) == Sent(NewLeader(l.raft), l.raft.tracked.trk.Keys - {c}, out);
      BecomesHead(s, c, done + {v}, longer[|longer| - 1].loops[c], l.raft, out, boot, mx, longer[|longer| - 1].released);
    } else {
      PollsOn(s, c, longer[|longer| - 1].loops[c], done + {v}, done + {v}, boot, mx, longer[|longer| - 1].released);
    }
  }

  /** Node `c` has just timed out: its requests and its own vote wait in its queues. */
  ghost predicate Launched(s: System, c: nat, boot: seq<Entry>, mx: nat) {
    && c in s.loops && s.loops.Keys == s.peers
    && (var l := s.loops[c];
        && l.stepsOnAdvance == [] && !l.advancec && l.raft.id == c
        && l.raft.role == StateCandidate && l.raft.term == 2 && l.raft.lead == NONE && l.raft.log == boot
        && l.raft.votes == map[] && l.raft.maxMsgSize == mx && l.raft.msgsAfterAppend == [Grant(c, c)]
        && forall v :: v in s.peers && v != c ==> Request(c, v, |boot|) in l.raft.msgs)
    && forall v {:trigger s.loops[v]} :: v in s.peers && v != c ==> Fresh(s.loops[v], boot)
  }

  lemma Launches(c: nat, peers: seq<nat>, payload: nat -> seq<byte>, maxApplying: pos, mx: nat) returns (trace: seq<System>)
    requires 0 !in peers && c in peers
    ensures SystemRun(trace, peers, payload, maxApplying) && trace != []
    ensures trace[|trace| - 1].peers == Elems(peers) && Launched(trace[|trace| - 1], c, BootEntries(peers, payload), mx)
  {
    hide SystemInit, Turn, Top, Step, SystemStepAt, OnePer, AsksFor, Bootstrap, Restarted, Launched, Fresh;
    var s := StartSystem(peers, payload, mx);
    var boot, l := BootEntries(peers, payload), s.loops[c];
    StartIsSystemRun(peers, payload, maxApplying, mx);
    StartsFresh(s, peers, payload, mx);
    BootEnds(peers, payload);
    var out := TimesOut(l, c, boot, maxApplying);
    assert Enabled(Top(l, maxApplying), Tick(true));
    trace := OneTurn([s], peers, payload, maxApplying, c, Tick(true));
    forall v | v in Elems(peers) && v != c ensures Request(c, v, |boot|) in out {
      FreshLog(l, boot);
      AskedEach(l.raft, out, c, v, boot);
    }
    LaunchedNow(s, c, trace[|trace| - 1].loops[c], out, boot, mx, trace[|trace| - 1].released);
    assert trace[|trace| - 1] == WithLoop(s, c, trace[|trace| - 1].loops[c], trace[|trace| - 1].released);
  }

  lemma FreshLog(l: Loop, boot: seq<Entry>)
    requires Fresh(l, boot)
    ensures l.raft.log == boot
  {
  }

  lemma LaunchedNow(s: System, c: nat, l: Loop, out: seq<Message>, boot: seq<Entry>, mx: nat, released: set<Message>)
    requires s.loops.Keys == s.peers && c in s.peers && s.loops[c].raft.id == c && s.loops[c].raft.maxMsgSize == mx
    requires forall v {:trigger s.loops[v]} :: v in s.loops ==> Fresh(s.loops[v], boot)
    requires l.stepsOnAdvance == [] && !l.advancec
    requires var n := s.loops[c].raft;
             l.raft == n.(role := StateCandidate, lead := NONE, votes := map[], msgs := out, term := 2, vote := c,
                          tracked := n.tracked.(trk := Restarted(n)), pendingConfIndex := 0,
                          msgsAfterAppend := [Grant(c, c)])
    requires forall v :: v in s.peers && v != c ==> Request(c, v, |boot|) in out
    ensures Launched(WithLoop(s, c, l, released), c, boot, mx)
  {
    hide Restarted;
  }

  /** The requests are released, and the candidate has counted its own vote. */
  lemma PollStarts(mid: seq<System>, c: nat, peers: seq<nat>, payload: nat -> seq<byte>, maxApplying: pos, mx: nat)
    returns (trace: seq<System>)
    requires SystemRun(mid, peers, payload, maxApplying) && mid[|mid| - 1].peers == Elems(peers)
    requires Launched(mid[|mid| - 1], c, BootEntries(peers, payload), mx)
    ensures SystemRun(trace, peers, payload, maxApplying) && trace != []
    ensures trace[|trace| - 1].peers == Elems(peers)
    ensures Heads(trace[|trace| - 1], c, BootEntries(peers, payload), mx)
            || ({c} != Elems(peers) && Polls(trace[|trace| - 1], c, {c}, {c}, BootEntries(peers, payload), mx))
  {
    hide SystemInit, Step, StepAll, Keep, SystemStepAt, Facts, Sent, NewLeader, Heads, Polls, Fresh, Follows;
    var s, boot := mid[|mid| - 1], BootEntries(peers, payload);
    FreshFollow(s, c, boot, mx);
    var n := mid[|mid| - 1].loops[c].raft;
    HasFacts(mid, peers, payload, maxApplying, c);
    trace := HandOver(mid, peers, payload, maxApplying, c);
    var q := n.(msgs := [], msgsAfterAppend := []);
    KeepOne(Grant(c, c), ToSelf(c));
    StepAllOne(q, Grant(c, c));
    QuietFacts(n, c, peers, payload);
    NoVotes();
    VoteArrives(q, c, {}, c, peers, payload);
    assert forall v :: v in Elems(peers) && v != c ==> Request(c, v, |boot|) in Elements(n.msgs);
    assert {} + {c} == {c};
    if exists o :: Step(q, Grant(c, c)) == Sent(NewLeader(q), q.tracked.trk.Keys - {c}, o) {
      var o :| Step(q, Grant(c, c)) == Sent(NewLeader(q), q.tracked.trk.Keys - {c}, o);
      FactsTrack(q, c, peers, payload);
      BecomesHead(s, c, {c}, trace[|trace| - 1].loops[c], q, o, boot, mx, trace[|trace| - 1].released);
    } else {
      PollsOn(s, c, trace[|trace| - 1].loops[c], {c}, {c}, boot, mx, trace[|trace| - 1].released);
    }
    assert trace[|trace| - 1] == WithLoop(s, c, trace[|trace| - 1].loops[c], trace[|trace| - 1].released);
  }

  lemma FreshFollow(s: System, c: nat, boot: seq<Entry>, mx: nat)
    requires Launched(s, c, boot, mx)
    ensures Waiting(s, c, {c}, boot)
  {
  }

  lemma NoVotes()
    ensures Witness.AllTrue({}) == map[]
  {
  }

  lemma QuietFacts(n: NodeState, v: nat, peers: seq<nat>, payload: nat -> seq<byte>)
    requires Facts(n, v, peers, payload)
    ensures Facts(n.(msgs := [], msgsAfterAppend := []), v, peers, payload)
  {
    StillSound(n.(msgs := [], msgsAfterAppend := []));
  }

  ghost function StartSystem(peers: seq<nat>, payload: nat -> seq<byte>, mx: nat): System {
    System(Elems(peers), BootEntries(peers, payload),
           map i | i in Elems(peers) :: Loop(Bootstrap(NewNode(i, false, false, mx), peers, payload), [], NO_READY,
                                             false, false, false, NONE), {})
  }

  lemma StartIsSystemRun(peers: seq<nat>, payload: nat -> seq<byte>, maxApplying: pos, mx: nat)
    requires peers != [] && 0 !in peers
    ensures SystemRun([StartSystem(peers, payload, mx)], peers, payload, maxApplying)
  {
    hide Bootstrap, BootEntries, Step;
    var s := StartSystem(peers, payload, mx);
    var c := StartOf(s);
    assert peers[0] in Elems(peers);
    forall i | i in c.nodes ensures exists pv, cq, m :: c.nodes[i] == Bootstrap(NewNode(i, pv, cq, m), peers, payload) {
      assert c.nodes[i] == Bootstrap(NewNode(i, false, false, mx), peers, payload);
    }
  }

  lemma StartsFresh(s: System, peers: seq<nat>, payload: nat -> seq<byte>, mx: nat)
    requires s == StartSystem(peers, payload, mx) && 0 !in peers
    ensures forall v {:trigger s.loops[v]} :: v in s.loops ==>
              && Fresh(s.loops[v], BootEntries(peers, payload)) && s.loops[v].lead == NONE
              && s.loops[v].raft.id == v && s.loops[v].raft.lead == NONE && !s.loops[v].raft.preVote
              && s.loops[v].raft.maxMsgSize == mx && v in s.loops[v].raft.tracked.trk
              && !s.loops[v].raft.tracked.trk[v].isLearner && Voters(s.loops[v].raft) == Elems(peers)
  {
    forall v | v in s.loops
      ensures var l := s.loops[v];
              && Fresh(l, BootEntries(peers, payload)) && l.lead == NONE
              && l.raft.id == v && l.raft.lead == NONE && !l.raft.preVote
              && l.raft.maxMsgSize == mx && v in l.raft.tracked.trk
              && !l.raft.tracked.trk[v].isLearner && Voters(l.raft) == Elems(peers)
    {
      Witness.BootstrapIs(v, false, false, mx, peers, payload);
      var n := s.loops[v].raft;
      assert n.log == BootEntries(peers, payload);
      assert n.tracked.trk[v] == Progress(0, |peers|, StateProbe, 0, true, false, false);
    }
  }

  /** The election timeout of a fresh node. */
  lemma TimesOut(l: Loop, c: nat, boot: seq<Entry>, maxApplying: pos) returns (out: seq<Message>)
    requires Fresh(l, boot) && l.raft.id == c && l.lead == l.raft.lead == NONE && !l.raft.preVote
    requires c in l.raft.tracked.trk && !l.raft.tracked.trk[c].isLearner && c in Voters(l.raft)
    ensures var r := Turn(l, Tick(true), maxApplying);
            && r.raft == l.raft.(role := StateCandidate, lead := NONE, votes := map[], msgs := out, term := 2, vote := c,
                                 tracked := l.raft.tracked.(trk := Restarted(l.raft)), pendingConfIndex := 0,
                                 msgsAfterAppend := [Grant(c, c)])
            && r.stepsOnAdvance == [] && !r.readyc && !r.advancec
    ensures OnePer(out, Voters(l.raft) - {c}, x => AsksFor(l.raft, MsgVote, 2, x))
  {
    hide Step, OnePer, AsksFor;
    out := HupCampaigns(l.raft, Msg(MsgHup, 0).(from := c));
  }

  lemma AskedEach(was: NodeState, out: seq<Message>, c: nat, v: nat, boot: seq<Entry>)
    requires OnePer(out, Voters(was) - {c}, x => AsksFor(was, MsgVote, 2, x)) && v in Voters(was) && v != c
    requires was.log == boot && was.id == c && TermAtEnd(boot) == 1
    ensures Request(c, v, |boot|) in out
  {
    assert Addressed(out, v);
    var k :| 0 <= k < |out| && out[k].to == v;
    assert AsksFor(was, MsgVote, 2, out[k]);
  }

  /** The poll goes on until the candidate heads the cluster. */
  lemma {:induction false} IsElected(trace: seq<System>, peers: seq<nat>, payload: nat -> seq<byte>, maxApplying: pos,
                                     c: nat, done: set<nat>, mx: nat) returns (longer: seq<System>)
    requires SystemRun(trace, peers, payload, maxApplying) && peers != [] && trace[|trace| - 1].peers == Elems(peers)
    requires Polls(trace[|trace| - 1], c, done, done, BootEntries(peers, payload), mx)
    requires c in done && done != Elems(peers)
    ensures SystemRun(longer, peers, payload, maxApplying) && longer != []
    ensures longer[|longer| - 1].peers == Elems(peers) && Heads(longer[|longer| - 1], c, BootEntries(peers, payload), mx)
    decreases |Elems(peers) - done|
  {
    hide SystemInit, SystemStepAt, Heads, Follows, Fresh, Calm;
    var boot := BootEntries(peers, payload);
    var v := Witness.SomeoneElse(done, Elems(peers));
    var mid := VoterAnswers(trace, peers, payload, maxApplying, c, done, v, mx);
    longer := GrantArrives(mid, peers, payload, maxApplying, c, done, v, mx);
    if !Heads(longer[|longer| - 1], c, boot, mx) {
      assert Elems(peers) - (done + {v}) == (Elems(peers) - done) - {v};
      longer := IsElected(longer, peers, payload, maxApplying, c, done + {v}, mx);
    }
  }

  lemma CanLead(peers: seq<nat>, payload: nat -> seq<byte>, maxApplying: pos, c: nat, mx: nat) returns (trace: seq<System>)
    requires 0 !in peers && c in peers
    ensures SystemRun(trace, peers, payload, maxApplying) && trace != []
    ensures trace[|trace| - 1].peers == Elems(peers) && Heads(trace[|trace| - 1], c, BootEntries(peers, payload), mx)
  {
    hide SystemInit, SystemStepAt, Heads, Polls, Launched;
    var mid := Launches(c, peers, payload, maxApplying, mx);
    trace := PollStarts(mid, c, peers, payload, maxApplying, mx);
    if !Heads(trace[|trace| - 1], c, BootEntries(peers, payload), mx) {
      trace := IsElected(trace, peers, payload, maxApplying, c, {c}, mx);
    }
  }

  // ---------------------------------------------------------------------
  // A proposal.

  /** What the log gains: the new leader's empty entry, and the proposed data. */
  ghost function Gained(b: nat, data: seq<byte>): seq<Entry> {
    [Entry(2, b + 1, EntryNormal, None), Entry(2, b + 2, EntryNormal, Some(data))]
  }

  ghost function Proposal(data: seq<byte>): Message {
    Msg(MsgProp, 0).(entries := [Entry(0, 0, EntryNormal, Some(data))])
  }

  /** Both entries, offered to `v`. */
  ghost function Offer(c: nat, v: nat, b: nat, data: seq<byte>): Message {
    Message(MsgApp, v, c, 2, 1, b, Gained(b, data), b, false, 0)
  }

  lemma ProposalIsProposable(data: seq<byte>)
    ensures Proposable(Proposal(data).entries) && Proposal(data) == Msg(MsgProp, 0).(entries := Proposal(data).entries)
  {
    var es := Proposal(data).entries;
    assert Decodes(es[0]);
  }

  /** The leader appends the data and offers both entries to everybody else. */
  lemma DataIsAppended(n: NodeState, c: nat, boot: seq<Entry>, data: seq<byte>, peers: seq<nat>, payload: nat -> seq<byte>)
    requires Facts(n, c, peers, payload) && n.role == StateLeader && n.term == 2 && boot == BootEntries(peers, payload)
    requires boot != [] && n.log == boot + [Entry(2, |boot| + 1, EntryNormal, None)] && n.maxMsgSize >= EntsSize(Gained(|boot|, data))
    requires forall v {:trigger n.tracked.trk[v]} :: v in n.tracked.trk && v != c ==>
               n.tracked.trk[v].next == |boot| + 1 && n.tracked.trk[v].state == StateProbe
    ensures var r := Step(n, Proposal(data).(from := c));
            && r.log == boot + Gained(|boot|, data) && r.role == StateLeader && r.term == 2 && r.id == c
            && r.msgsAfterAppend == n.msgsAfterAppend + [OwnAck(c, |boot| + 2)]
            && r.tracked.trk.Keys == n.tracked.trk.Keys && r.tracked.trk[c] == n.tracked.trk[c]
            && (forall v {:trigger r.tracked.trk[v]} :: v in r.tracked.trk ==>
                  r.tracked.trk[v].matched == n.tracked.trk[v].matched && r.tracked.trk[v].next == n.tracked.trk[v].next
                  && r.tracked.trk[v].state == n.tracked.trk[v].state)
            && forall v :: v in Elems(peers) && v != c ==> Offer(c, v, |boot|, data) in r.msgs
  {
    hide Step, Sent, OnePer, AppendTo, Landed, PendingIs, PeersInReach, Proposable, Facts;
    var m := Proposal(data).(from := c);
    ProposalIsProposable(data);
    FactsLead(n, c, peers, payload);
    var es, pending, out := ProposalIsAppended(n, m);
    DataLands(es, m.entries, n.pendingConfIndex <= n.applied, n.tracked.cfg.voters.outgoing != {}, |n.log|, data);
    var a := Extended(n, es, pending);
    assert a.log == boot + Gained(|boot|, data);
    SentStays(a, n.tracked.trk.Keys - {c}, out);
    forall v | v in Elems(peers) && v != c ensures Offer(c, v, |boot|, data) in out {
      OfferIsSent(a, out, n.tracked.trk.Keys - {c}, c, v, boot, data, peers, payload);
    }
  }

  lemma FactsLead(n: NodeState, c: nat, peers: seq<nat>, payload: nat -> seq<byte>)
    requires Facts(n, c, peers, payload) && n.role == StateLeader
    ensures n.id == c && c in n.tracked.trk && n.committed == |peers| <= |n.log| && n.applied <= |n.log| && PeersInReach(n)
    ensures n.tracked.trk.Keys == Elems(peers)
  {
  }

  lemma DataLands(es: seq<Entry>, proposed: seq<Entry>, free: bool, joint: bool, last: nat, data: seq<byte>)
    requires proposed == [Entry(0, 0, EntryNormal, Some(data))] && Landed(proposed, free, joint, 2, last, es)
    ensures es == [Entry(2, last + 1, EntryNormal, Some(data))]
  {
    assert Stays(proposed, free, joint, 0) && proposed[0] == Entry(0, 0, EntryNormal, Some(data));
    assert es[0] == Entry(2, last + 1, EntryNormal, Some(data));
  }

  lemma SentStays(a: NodeState, ids: set<nat>, out: seq<Message>)
    requires a.id !in ids
    ensures var r := Sent(a, ids, out);
            && r.msgs == a.msgs + out && r.log == a.log && r.role == a.role && r.term == a.term && r.id == a.id
            && r.msgsAfterAppend == a.msgsAfterAppend && r.tracked.trk.Keys == a.tracked.trk.Keys
            && (a.id in a.tracked.trk ==> r.tracked.trk[a.id] == a.tracked.trk[a.id])
            && forall v {:trigger r.tracked.trk[v]} :: v in r.tracked.trk ==>
                 r.tracked.trk[v].matched == a.tracked.trk[v].matched && r.tracked.trk[v].next == a.tracked.trk[v].next
                 && r.tracked.trk[v].state == a.tracked.trk[v].state
  {
  }

  lemma OfferIsSent(a: NodeState, out: seq<Message>, ids: set<nat>, c: nat, v: nat, boot: seq<Entry>, data: seq<byte>,
                    peers: seq<nat>, payload: nat -> seq<byte>)
    requires OnePer(out, ids, x => AppendTo(a, x)) && v in ids && a.id == c && a.term == 2 && a.committed == |boot|
    requires boot == BootEntries(peers, payload) && boot != []
    requires a.log == boot + Gained(|boot|, data) && a.maxMsgSize >= EntsSize(Gained(|boot|, data))
    requires v in a.tracked.trk && a.tracked.trk[v].next == |boot| + 1 && a.tracked.trk[v].state == StateProbe
    ensures Offer(c, v, |boot|, data) in out
  {
    assert Addressed(out, v);
    var k :| 0 <= k < |out| && out[k].to == v;
    assert AppendTo(a, out[k]);
    BothAreDue(a, a.tracked.trk[v], out[k].entries, boot, data);
    assert a.log[|boot| - 1] == boot[|boot| - 1];
    assert boot[|boot| - 1].term == 1;
  }

  lemma BothAreDue(a: NodeState, p: Progress, es: seq<Entry>, boot: seq<Entry>, data: seq<byte>)
    requires Due(a, p, es) && p.state == StateProbe && p.next == |boot| + 1
    requires a.log == boot + Gained(|boot|, data) && a.maxMsgSize >= EntsSize(Gained(|boot|, data))
    ensures es == Gained(|boot|, data)
  {
    hide EntsSize;
    var rest := a.log[p.next - 1..];
    assert rest == Gained(|boot|, data);
    assert rest[..2] == rest;
  }

  /** A message on a loop that may have messages waiting, but no Ready open. */
  lemma ReceivesAnyway(l: Loop, e: Select, maxApplying: pos)
    requires l.stepsOnAdvance == [] && !l.advancec
    requires (e.Recv? && e.m.from in l.raft.tracked.trk) || (e.Prop? && e.m.mtype == MsgProp && l.raft.lead != NONE && l.lead == NONE)
    ensures var r := Turn(l, e, maxApplying);
            && Enabled(Top(l, maxApplying), e) && Released(Top(l, maxApplying), e) == []
            && r.raft == Step(l.raft, if e.Recv? then e.m else e.m.(from := l.raft.id))
            && r.stepsOnAdvance == [] && !r.advancec && r.lead == l.raft.lead
  {
    hide Step;
  }

  /** The leader's own acknowledgements come back to it from Advance. */
  lemma OwnAckIsRecorded(n: NodeState, c: nat, k: nat)
    requires n.id == c && n.role == StateLeader && n.term == 2 && OwnProgress(n, c, k)
    ensures var r := Step(n, OwnAck(c, k + 1));
            && r == n.(tracked := r.tracked) && r.tracked.cfg == n.tracked.cfg && OwnProgress(r, c, k + 1)
            && r.tracked.trk == n.tracked.trk[c := r.tracked.trk[c]]
  {
    hide Step;
    var p := n.tracked.trk[c];
    AckIsRecorded(n, OwnAck(c, k + 1));
    assert !Unpauses(p, k + 1);
    var q := Learned(p, k + 1);
    assert q == p.(matched := k + 1, next := k + 2, recentActive := true);
    assert Step(n, OwnAck(c, k + 1)) == n.(tracked := n.tracked.(trk := n.tracked.trk[c := q]));
  }

  lemma OwnAcksAreRecorded(n: NodeState, c: nat, b: nat)
    requires n.id == c && n.role == StateLeader && n.term == 2 && OwnProgress(n, c, b)
    ensures var r := StepAll(n, [OwnAck(c, b + 1), OwnAck(c, b + 2)]);
            && r == n.(tracked := r.tracked) && r.tracked.cfg == n.tracked.cfg && OwnProgress(r, c, b + 2)
            && r.tracked.trk == n.tracked.trk[c := r.tracked.trk[c]]
  {
    hide Step;
    hide OwnAck, OwnProgress;
    var acks := [OwnAck(c, b + 1), OwnAck(c, b + 2)];
    var n1 := Step(n, OwnAck(c, b + 1));
    var n2 := Step(n1, OwnAck(c, b + 2));
    assert acks[1..] == [OwnAck(c, b + 2)];
    StepAllOne(n1, OwnAck(c, b + 2));
    assert StepAll(n, acks) == n2;
    OwnAckIsRecorded(n, c, b);
    OwnAckIsRecorded(n1, c, b + 1);
    assert n2.tracked.trk == n.tracked.trk[c := n2.tracked.trk[c]];
  }

  /**
   * The data is in the leader's log and offered to everybody else; the nodes in `got` have it and the leader has
   * recorded that.
   */
  ghost predicate Spreads(s: System, c: nat, got: set<nat>, boot: seq<Entry>, data: seq<byte>) {
    var all := boot + Gained(|boot|, data);
    && c in s.loops && s.loops.Keys == s.peers && got <= s.peers
    && (var l := s.loops[c];
        && l.stepsOnAdvance == [] && !l.advancec && l.raft.role == StateLeader && l.raft.term == 2 && l.raft.log == all
        && l.raft.tracked.trk.Keys == s.peers && OwnProgress(l.raft, c, |all|)
        && forall v {:trigger l.raft.tracked.trk[v]} :: v in s.peers && v != c ==>
             if v in got then l.raft.tracked.trk[v].matched == |all|
             else l.raft.tracked.trk[v].matched == 0 && l.raft.tracked.trk[v].state == StateProbe)
    && (forall v :: v in s.peers && v != c ==> Offer(c, v, |boot|, data) in s.released)
    && forall v {:trigger s.loops[v]} :: v in s.peers && v != c ==>
         if v in got then s.loops[v].raft.log == all else Follows(s.loops[v], boot)
  }

  /** The proposal is taken, and its broadcast released. */
  lemma IsOffered(trace: seq<System>, peers: seq<nat>, payload: nat -> seq<byte>, maxApplying: pos,
                  c: nat, mx: nat, data: seq<byte>) returns (longer: seq<System>)
    requires SystemRun(trace, peers, payload, maxApplying) && peers != [] && c in peers
    requires trace[|trace| - 1].peers == Elems(peers) && Heads(trace[|trace| - 1], c, BootEntries(peers, payload), mx)
    requires mx >= EntsSize(Gained(|peers|, data))
    ensures SystemRun(longer, peers, payload, maxApplying) && longer != []
    ensures longer[|longer| - 1].peers == Elems(peers)
    ensures Spreads(longer[|longer| - 1], c, {}, BootEntries(peers, payload), data)
  {
    hide SystemInit, SystemStepAt, Turn, Top, Released, Step, StepAll, Keep, Facts, Follows, EntsSize, Gained, Enabled, Spreads, OnePer, BootEntries;
    var s, boot := trace[|trace| - 1], BootEntries(peers, payload);
    var l, e := s.loops[c], Prop(Proposal(data));
    BootEnds(peers, payload);
    HasFacts(trace, peers, payload, maxApplying, c);
    FactsTrack(l.raft, c, peers, payload);
    ProposalIsProposable(data);
    ReceivesAnyway(l, e, maxApplying);
    DataIsAppended(l.raft, c, boot, data, peers, payload);
    var mid := OneTurn(trace, peers, payload, maxApplying, c, e);
    var n := mid[|mid| - 1].loops[c].raft;
    longer := HandOver(mid, peers, payload, maxApplying, c);
    KeepTwo(OwnAck(c, |boot| + 1), OwnAck(c, |boot| + 2), ToSelf(c));
    OwnAcksAreRecorded(n.(msgs := [], msgsAfterAppend := []), c, |boot|);
    SpreadStarts(s, l, n, longer[|longer| - 1], c, boot, data, mx);
  }

  lemma KeepTwo(a: Message, b: Message, kind: Kind)
    requires Is(a, kind) && Is(b, kind)
    ensures Keep([a] + [b], kind) == [a, b]
  {
    KeepJoins([a], [b], kind);
    KeepOne(a, kind);
    KeepOne(b, kind);
  }

  lemma SpreadStarts(s: System, l: Loop, n: NodeState, r: System, c: nat, boot: seq<Entry>, data: seq<byte>, mx: nat)
    requires Heads(s, c, boot, mx) && l == s.loops[c] && c in r.loops && r.loops == s.loops[c := r.loops[c]] && r.peers == s.peers
    requires n.log == boot + Gained(|boot|, data) && n.role == StateLeader && n.term == 2
    requires n.tracked.trk.Keys == s.peers == l.raft.tracked.trk.Keys && OwnProgress(n, c, |boot|)
    requires forall v {:trigger n.tracked.trk[v]} :: v in n.tracked.trk ==>
               n.tracked.trk[v].matched == l.raft.tracked.trk[v].matched && n.tracked.trk[v].state == l.raft.tracked.trk[v].state
    requires Elements(n.msgs) <= r.released
    requires forall v :: v in s.peers && v != c ==> Offer(c, v, |boot|, data) in n.msgs
    requires var q := r.loops[c].raft;
             && q.role == StateLeader && q.term == 2 && q.log == n.log && OwnProgress(q, c, |boot| + 2)
             && q.tracked.trk == n.tracked.trk[c := q.tracked.trk[c]]
    requires r.loops[c].stepsOnAdvance == [] && !r.loops[c].advancec
    ensures Spreads(r, c, {}, boot, data)
  {
    hide Follows, Offer;
    assert forall v :: v in s.peers && v != c ==> Offer(c, v, |boot|, data) in Elements(n.msgs);
  }

  // ---------------------------------------------------------------------
  // Replication.

  ghost function Ack(c: nat, v: nat, k: nat): Message { Message(MsgAppResp, c, v, 2, 0, k, [], 0, false, 0) }

  /** The offered entries reach a node that has the bootstrap log. */
  lemma OfferIsAccepted(n: NodeState, c: nat, boot: seq<Entry>, data: seq<byte>)
    requires n.role == StateFollower && n.log == boot && n.committed == |boot| && (n.term == 1 || n.term == 2)
    requires boot != [] && TermAtEnd(boot) == 1 && n.msgs == [] && n.msgsAfterAppend == []
    ensures var r := Step(n, Offer(c, n.id, |boot|, data));
            && r.log == boot + Gained(|boot|, data) && r.id == n.id && r.lead == c
            && r.msgs == [] && r.msgsAfterAppend == [Ack(c, n.id, |boot| + 2)]
  {
    hide Step, InNewTerm, Overwritten;
    var m := Offer(c, n.id, |boot|, data);
    if n.term == 1 {
      NewerTerm(n, m);
      NewTermKeeps(n, 2, c);
      AcceptsNow(InNewTerm(n, 2, c), m, c, boot, data);
    } else {
      AcceptsNow(n, m, c, boot, data);
    }
  }

  lemma NewTermKeeps(n: NodeState, term: nat, lead: nat)
    ensures var r := InNewTerm(n, term, lead);
            && r.role == StateFollower && r.term == term && r.log == n.log && r.committed == n.committed && r.id == n.id
            && r.msgs == n.msgs && r.msgsAfterAppend == n.msgsAfterAppend
  {
  }

  lemma AcceptsNow(n: NodeState, m: Message, c: nat, boot: seq<Entry>, data: seq<byte>)
    requires m == Offer(c, n.id, |boot|, data)
    requires n.role == StateFollower && n.log == boot && n.committed == |boot| && n.term == 2
    requires boot != [] && TermAtEnd(boot) == 1 && n.msgs == [] && n.msgsAfterAppend == []
    ensures var r := Step(n, m);
            && r.log == boot + Gained(|boot|, data) && r.id == n.id && r.lead == c
            && r.msgs == [] && r.msgsAfterAppend == [Ack(c, n.id, |boot| + 2)]
  {
    hide Step;
    AppendIsAccepted(n, m);
    WrittenBehind(boot, m.entries, Step(n, m).log);
  }

  lemma WrittenBehind(boot: seq<Entry>, es: seq<Entry>, r: seq<Entry>)
    requires Overwritten(boot, |boot|, es, r) && es != []
    ensures r == boot + es
  {
    var k :| 0 <= k < |es| && FirstDiffers(boot, |boot|, es, k) && r == boot[..|boot| + k] + es[k..];
    assert k == 0 && boot[..|boot|] == boot && es[0..] == es;
  }

  /** The acknowledgement reaches the leader. */
  lemma AckIsHeard(n: NodeState, c: nat, v: nat, k: nat)
    requires n.id == c && n.role == StateLeader && n.term == 2 && v in n.tracked.trk && v != c
    requires n.tracked.trk[v].matched == 0 && n.tracked.trk[v].state == StateProbe && k > 0
    ensures var r := Step(n, Ack(c, v, k));
            && r.role == n.role && r.term == n.term && r.log == n.log && v in r.tracked.trk && r.tracked.trk[v].matched == k
            && r.tracked.trk == n.tracked.trk[v := r.tracked.trk[v]]
  {
    hide Step;
    AckIsRecorded(n, Ack(c, v, k));
    assert Learned(n.tracked.trk[v], k).matched == k;
  }

  /** One more node gets the entries, acknowledges them and is heard. */
  lemma ReachesOne(trace: seq<System>, peers: seq<nat>, payload: nat -> seq<byte>, maxApplying: pos,
                   c: nat, got: set<nat>, v: nat, data: seq<byte>) returns (longer: seq<System>)
    requires SystemRun(trace, peers, payload, maxApplying) && peers != [] && trace[|trace| - 1].peers == Elems(peers)
    requires Spreads(trace[|trace| - 1], c, got, BootEntries(peers, payload), data)
    requires v in Elems(peers) && v != c && v !in got
    ensures SystemRun(longer, peers, payload, maxApplying) && longer != []
    ensures longer[|longer| - 1].peers == Elems(peers)
    ensures Spreads(longer[|longer| - 1], c, got + {v}, BootEntries(peers, payload), data)
  {
    hide SystemInit, SystemStepAt, Turn, Top, Released, Step, StepAll, Keep, Facts, Gained, Enabled, OwnProgress, Calm;
    var s, boot := trace[|trace| - 1], BootEntries(peers, payload);
    var m, ack := Offer(c, v, |boot|, data), Ack(c, v, |boot| + 2);
    BootEnds(peers, payload);
    var mid := Accepts(trace, peers, payload, maxApplying, c, got, v, data);
    var t := mid[|mid| - 1];
    HasFacts(mid, peers, payload, maxApplying, c);
    FactsTrack(t.loops[c].raft, c, peers, payload);
    ReceivesAnyway(t.loops[c], Recv(ack), maxApplying);
    AckIsHeard(t.loops[c].raft, c, v, |boot| + 2);
    longer := OneTurn(mid, peers, payload, maxApplying, c, Recv(ack));
    SpreadsOn(s, t, longer[|longer| - 1], c, got, v, boot, data);
  }

  lemma Accepts(trace: seq<System>, peers: seq<nat>, payload: nat -> seq<byte>, maxApplying: pos,
                c: nat, got: set<nat>, v: nat, data: seq<byte>) returns (mid: seq<System>)
    requires SystemRun(trace, peers, payload, maxApplying) && peers != [] && trace[|trace| - 1].peers == Elems(peers)
    requires Spreads(trace[|trace| - 1], c, got, BootEntries(peers, payload), data)
    requires v in Elems(peers) && v != c && v !in got
    ensures SystemRun(mid, peers, payload, maxApplying) && mid != []
    ensures var (s, t) := (trace[|trace| - 1], mid[|mid| - 1]);
            && t.peers == s.peers && v in t.loops && t.loops == s.loops[v := t.loops[v]]
            && s.released <= t.released && Ack(c, v, |peers| + 2) in t.released
            && t.loops[v].raft.log == BootEntries(peers, payload) + Gained(|peers|, data)
  {
    hide SystemInit, SystemStepAt, Turn, Top, Released, Step, StepAll, Keep, Facts, Gained, Enabled, Spreads;
    var s, boot := trace[|trace| - 1], BootEntries(peers, payload);
    SpreadFacts(s, c, got, v, boot, data);
    var l, m := s.loops[v], Offer(c, v, |boot|, data);
    BootEnds(peers, payload);
    HasFacts(trace, peers, payload, maxApplying, v);
    FactsTrack(l.raft, v, peers, payload);
    FactsCommit(l.raft, v, peers, payload);
    ReceivesAnyway(l, Recv(m), maxApplying);
    OfferIsAccepted(l.raft, c, boot, data);
    var first := OneTurn(trace, peers, payload, maxApplying, v, Recv(m));
    mid := HandOver(first, peers, payload, maxApplying, v);
    KeepOne(Ack(c, v, |boot| + 2), ToOthers(v));
    KeepOne(Ack(c, v, |boot| + 2), ToSelf(v));
    StepAllOne(first[|first| - 1].loops[v].raft.(msgs := [], msgsAfterAppend := []), m);
    assert Ack(c, v, |boot| + 2) in Elements([Ack(c, v, |boot| + 2)]);
  }

  lemma SpreadFacts(s: System, c: nat, got: set<nat>, v: nat, boot: seq<Entry>, data: seq<byte>)
    requires Spreads(s, c, got, boot, data) && v in s.peers && v != c && v !in got
    ensures v in s.loops && c in s.peers && Follows(s.loops[v], boot) && Offer(c, v, |boot|, data) in s.released
  {
  }

  lemma FactsCommit(n: NodeState, v: nat, peers: seq<nat>, payload: nat -> seq<byte>)
    requires Facts(n, v, peers, payload)
    ensures n.committed == |peers|
  {
  }

  lemma SpreadsOn(s: System, t: System, r: System, c: nat, got: set<nat>, v: nat, boot: seq<Entry>, data: seq<byte>)
    requires Spreads(s, c, got, boot, data) && v in s.peers && v != c && v !in got
    requires t.peers == s.peers && v in t.loops && t.loops == s.loops[v := t.loops[v]] && s.released <= t.released
    requires t.loops[v].raft.log == boot + Gained(|boot|, data)
    requires r.peers == s.peers && c in r.loops && r.loops == t.loops[c := r.loops[c]] && t.released <= r.released
    requires r.loops[c].stepsOnAdvance == [] && !r.loops[c].advancec
    requires var (n, q) := (t.loops[c].raft, r.loops[c].raft);
             && q.role == n.role && q.term == n.term && q.log == n.log && v in n.tracked.trk && v in q.tracked.trk
             && q.tracked.trk[v].matched == |boot| + 2 && q.tracked.trk == n.tracked.trk[v := q.tracked.trk[v]]
    ensures Spreads(r, c, got + {v}, boot, data)
  {
    hide Follows, Offer;
  }

  lemma {:induction false} ReachesAll(trace: seq<System>, peers: seq<nat>, payload: nat -> seq<byte>, maxApplying: pos,
                                      c: nat, got: set<nat>, data: seq<byte>) returns (longer: seq<System>)
    requires SystemRun(trace, peers, payload, maxApplying) && peers != [] && trace[|trace| - 1].peers == Elems(peers)
    requires Spreads(trace[|trace| - 1], c, got, BootEntries(peers, payload), data) && c !in got
    ensures SystemRun(longer, peers, payload, maxApplying) && longer != []
    ensures longer[|longer| - 1].peers == Elems(peers)
    ensures Spreads(longer[|longer| - 1], c, Elems(peers) - {c}, BootEntries(peers, payload), data)
    decreases |Elems(peers) - got|
  {
    hide SystemInit, SystemStepAt;
    GotPeers(trace[|trace| - 1], c, got, BootEntries(peers, payload), data);
    hide Spreads;
    if got == Elems(peers) - {c} {
      longer := trace;
    } else {
      var v := Witness.SomeoneElse(got, Elems(peers) - {c});
      longer := ReachesOne(trace, peers, payload, maxApplying, c, got, v, data);
      assert Elems(peers) - (got + {v}) == (Elems(peers) - got) - {v};
      longer := ReachesAll(longer, peers, payload, maxApplying, c, got + {v}, data);
    }
  }

  lemma GotPeers(s: System, c: nat, got: set<nat>, boot: seq<Entry>, data: seq<byte>)
    requires Spreads(s, c, got, boot, data)
    ensures got <= s.peers
  {
  }

  /** What a leader has been proposed is in every log, and the leader knows. */
  ghost predicate Everywhere(s: System, c: nat, log: seq<Entry>) {
    && LoopLeads(s, c, 2) && s.loops.Keys == s.peers
    && (forall v {:trigger s.loops[v]} :: v in s.peers ==> s.loops[v].raft.log == log)
    && Safety.MatchedBy(s.loops[c].raft, s.peers, |log|)
  }

  /**
   * Whatever the peers, each of them can be elected, and whatever data it is then proposed can reach the log of every
   * peer and be known to have, by nothing but turns of the node loops and the messages that their Readys release.
   */
  lemma DataCanSpread(peers: seq<nat>, payload: nat -> seq<byte>, maxApplying: pos, c: nat, data: seq<byte>)
    returns (trace: seq<System>)
    requires 0 !in peers && c in peers
    ensures SystemRun(trace, peers, payload, maxApplying) && trace != []
    ensures var (s, b) := (trace[|trace| - 1], |peers|);
            && s.peers == Elems(peers)
            && Everywhere(s, c, BootEntries(peers, payload) + [Entry(2, b + 1, EntryNormal, None),
                                                              Entry(2, b + 2, EntryNormal, Some(data))])
  {
    hide SystemInit, SystemStepAt, Heads, Spreads, EntsSize;
    var b := |peers|;
    var mx := EntsSize(Gained(b, data));
    trace := CanLead(peers, payload, maxApplying, c, mx);
    trace := IsOffered(trace, peers, payload, maxApplying, c, mx, data);
    trace := ReachesAll(trace, peers, payload, maxApplying, c, {}, data);
    SpreadIsEverywhere(trace[|trace| - 1], c, peers, payload, data);
  }

  lemma SpreadIsEverywhere(s: System, c: nat, peers: seq<nat>, payload: nat -> seq<byte>, data: seq<byte>)
    requires s.peers == Elems(peers) && Spreads(s, c, s.peers - {c}, BootEntries(peers, payload), data) && c in s.peers
    ensures Everywhere(s, c, BootEntries(peers, payload) + [Entry(2, |peers| + 1, EntryNormal, None),
                                                           Entry(2, |peers| + 2, EntryNormal, Some(data))])
  {
  }
}
