/**
 * The cluster as it is deployed: every node runs its loop, messages wait in its queues until a Ready is
 * accepted, and self-addressed ones until Advance. It is simulated by the cluster in which they are sent at once.
 */
module Deployed {
  import opened RaftTypes
  import opened Quorum
  import opened Tracker
  import opened ConfChange
  import opened ConfEntry
  import opened RaftSpec
  import opened Queues
  import opened NodeLoop
  import opened Cluster
  import opened Invariant
  import opened Events
  import opened Safety
  import opened LogSpec

  /** `released` are the messages of all accepted Readys. */
  datatype System = System(peers: set<nat>, boot: seq<Entry>, loops: map<nat, Loop>, released: set<Message>)

  ghost predicate FreshLoop(l: Loop) {
    l == Loop(l.raft, [], NO_READY, false, false, false, NONE)
  }

  ghost function StartOf(s: System): Cluster {
    Cluster(s.peers, s.boot, map i | i in s.loops :: s.loops[i].raft, {}, map[], map[])
  }

  ghost predicate SystemInit(s: System, peers: seq<nat>, payload: nat -> seq<byte>) {
    && Init(StartOf(s), peers, payload) && s.released == {}
    && forall i {:trigger s.loops[i]} :: i in s.loops ==> FreshLoop(s.loops[i])
  }

  /** What the surroundings of node `i` may put into its channels. */
  predicate Offered(s: System, i: nat, e: Select) {
    match e
    case Prop(m) => m == Msg(MsgProp, 0).(entries := m.entries) && Proposable(m.entries)
    case Recv(m) => m in s.released && m.to == i
    case Conf(ccs) => |ccs| == 1 && ccs[0].ctype == ADD_NODE && ccs[0].nodeID in s.peers
    case _ => true
  }

  function Released(l: Loop, e: Select): seq<Message> { if e == TakeReady then l.rd.messages else [] }

  /** Node `i` takes one turn of its loop. */
  ghost predicate SystemNext(s: System, i: nat, e: Select, s': System, maxApplying: pos) {
    && i in s.loops && Offered(s, i, e) && Enabled(Top(s.loops[i], maxApplying), e)
    && s' == s.(loops := s.loops[i := Turn(s.loops[i], e, maxApplying)],
                released := s.released + Elements(Released(Top(s.loops[i], maxApplying), e)))
  }

  ghost function Elements(ms: seq<Message>): set<Message> { set m | m in ms }

  ghost predicate SystemStepAt(trace: seq<System>, k: nat, maxApplying: pos)
    requires k + 1 < |trace|
  {
    exists i, e {:trigger SystemNext(trace[k], i, e, trace[k + 1], maxApplying)} ::
      SystemNext(trace[k], i, e, trace[k + 1], maxApplying)
  }

  ghost predicate SystemRun(trace: seq<System>, peers: seq<nat>, payload: nat -> seq<byte>, maxApplying: pos) {
    && trace != [] && SystemInit(trace[0], peers, payload)
    && forall k: nat {:trigger SystemStepAt(trace, k, maxApplying)} :: k + 1 < |trace| ==> SystemStepAt(trace, k, maxApplying)
  }

  // ---------------------------------------------------------------------
  // The simulation relation.

  /** In the cluster, all that the node still holds back has been sent. */
  ghost predicate LoopRel(c: Cluster, i: nat, l: Loop) {
    && i in c.nodes && c.nodes[i] == Flush(l.raft) && Out(l.raft) <= c.net
    && (forall m :: m in l.stepsOnAdvance ==> m in c.net && m.to == i)
    && ChannelsOk(l)
  }

  ghost predicate Rel(s: System, c: Cluster) {
    && c.peers == s.peers && c.nodes.Keys == s.loops.Keys && s.released <= c.net
    && forall i {:trigger LoopRel(c, i, s.loops[i])} :: i in s.loops ==> LoopRel(c, i, s.loops[i])
  }

  /** Node `i` has become `n` without its messages, all of which are in the network. */
  ghost predicate Moved(c: Cluster, i: nat, n: NodeState, c': Cluster) {
    && c'.peers == c.peers && c'.nodes == c.nodes[i := Flush(n)]
    && c.net <= c'.net && Out(n) <= c'.net
  }

  /** A queue that was handled apart goes in front. */
  lemma FlushStep(n: NodeState, m: Message)
    ensures Flush(Step(n, m)) == Flush(Step(Flush(n), m))
    ensures Out(Step(n, m)) == Out(n) + Out(Step(Flush(n), m))
  {
    StepAhead(Flush(n), m, n.msgs, n.msgsAfterAppend);
    AheadOfNone(n);
    FlushAhead(Step(Flush(n), m), n.msgs, n.msgsAfterAppend);
  }

  lemma FlushApply(n: NodeState, ccs: seq<ConfChangeSingle>)
    ensures Flush(ApplyConfChange(n, ccs)) == Flush(ApplyConfChange(Flush(n), ccs))
    ensures Out(ApplyConfChange(n, ccs)) == Out(n) + Out(ApplyConfChange(Flush(n), ccs))
  {
    ApplyAhead(Flush(n), ccs, n.msgs, n.msgsAfterAppend);
    AheadOfNone(n);
    FlushAhead(ApplyConfChange(Flush(n), ccs), n.msgs, n.msgsAfterAppend);
  }

  lemma AheadOfNone(n: NodeState)
    ensures Ahead(Flush(n), n.msgs, n.msgsAfterAppend) == n
  {
    assert n.msgs + [] == n.msgs && n.msgsAfterAppend + [] == n.msgsAfterAppend;
  }

  lemma FlushAhead(n: NodeState, a: seq<Message>, b: seq<Message>)
    ensures Flush(Ahead(n, a, b)) == Flush(n)
    ensures Out(Ahead(n, a, b)) == Elements(a) + Elements(b) + Out(n)
  {
  }

  // ---------------------------------------------------------------------
  // Paths of the cluster.

  ghost predicate Path(p: seq<Cluster>, c: Cluster, c': Cluster) {
    p != [] && p[0] == c && p[|p| - 1] == c' && StepsAlong(p)
  }

  lemma StayPath(c: Cluster)
    ensures Path([c], c, c)
  {
  }

  lemma OneStepPath(c: Cluster, e: Event, c': Cluster)
    requires Next(c, e, c')
    ensures Path([c, c'], c, c')
  {
    assert Steps(c, c');
  }

  lemma JoinPaths(p: seq<Cluster>, q: seq<Cluster>, a: Cluster, b: Cluster, c: Cluster)
    requires Path(p, a, b) && Path(q, b, c)
    ensures Path(p + q[1..], a, c)
  {
    var r := p + q[1..];
    forall k: nat | k + 1 < |r| ensures StepAt(r, k) {
      if k + 1 < |p| {
        assert StepAt(p, k);
      } else {
        assert StepAt(q, k + 1 - |p|);
        assert r[k] == q[k + 1 - |p|] && r[k + 1] == q[k + 2 - |p|];
      }
    }
  }

  lemma {:induction false} PathKeeps(p: seq<Cluster>, c: Cluster, c': Cluster)
    requires Path(p, c, c') && Inv(c)
    ensures Inv(c')
  {
    StepsKeepInv(p, |p| - 1);
  }

  // ---------------------------------------------------------------------
  // Each turn is simulated.

  /** One message stepped by a node that holds its own messages back. */
  lemma StepPath(c: Cluster, i: nat, n: NodeState, m: Message, e: Event) returns (c': Cluster)
    requires i in c.nodes && c.nodes[i] == Flush(n) && Out(n) <= c.net
    requires Next(c, e, Update(c, i, Step(c.nodes[i], m)))
    ensures Path([c, c'], c, c') && Moved(c, i, Step(n, m), c')
  {
    c' := Update(c, i, Step(c.nodes[i], m));
    OneStepPath(c, e, c');
    FlushStep(n, m);
  }

  lemma {:induction false} AdvancePath(c: Cluster, i: nat, n: NodeState, ms: seq<Message>)
    returns (p: seq<Cluster>, c': Cluster)
    requires i in c.nodes && c.nodes[i] == Flush(n) && Out(n) <= c.net
    requires forall m :: m in ms ==> m in c.net && m.to == i
    ensures Path(p, c, c') && Moved(c, i, StepAll(n, ms), c')
    decreases |ms|
  {
    if ms == [] {
      StayPath(c);
      return [c], c;
    }
    var c1 := StepPath(c, i, n, ms[0], Deliver(ms[0]));
    var q, c2 := AdvancePath(c1, i, Step(n, ms[0]), ms[1..]);
    JoinPaths([c, c1], q, c, c1, c2);
    p, c' := [c, c1] + q[1..], c2;
  }

  lemma ConfPath(c: Cluster, i: nat, n: NodeState, ccs: seq<ConfChangeSingle>) returns (p: seq<Cluster>, c': Cluster)
    requires i in c.nodes && c.nodes[i] == Flush(n) && Out(n) <= c.net
    requires |ccs| == 1 && ccs[0].ctype == ADD_NODE && ccs[0].nodeID in c.peers
    ensures Path(p, c, c') && Moved(c, i, ApplyConfChange(n, ccs), c')
  {
    assert ccs == [ConfChangeSingle(ADD_NODE, ccs[0].nodeID)];
    c' := Update(c, i, ApplyConfChange(c.nodes[i], ccs));
    OneStepPath(c, ConfApplied(i, ccs[0].nodeID), c');
    FlushApply(n, ccs);
    p := [c, c'];
  }

  lemma TickPath(c: Cluster, i: nat, n: NodeState, fires: bool) returns (p: seq<Cluster>, c': Cluster)
    requires i in c.nodes && c.nodes[i] == Flush(n) && Out(n) <= c.net && n.id == i
    ensures Path(p, c, c') && Moved(c, i, TickStep(n, fires), c')
  {
    if fires && n.role == StateLeader {
      c' := StepPath(c, i, n, Msg(MsgBeat, 0).(from := i), Beat(i));
      p := [c, c'];
    } else if fires && Promotable(n) {
      c' := StepPath(c, i, n, Msg(MsgHup, 0).(from := i), Timeout(i));
      p := [c, c'];
    } else {
      StayPath(c);
      p, c' := [c], c;
    }
  }

  /** The state of the node after any arm but TakeReady is reached in the cluster. */
  lemma ArmPath(s: System, c: Cluster, i: nat, l: Loop, e: Select) returns (p: seq<Cluster>, c': Cluster)
    requires LoopRel(c, i, l) && l.raft.id == i && e != TakeReady && Offered(s, i, e)
    requires s.released <= c.net && s.peers == c.peers
    ensures Path(p, c, c') && Moved(c, i, Arm(l, e).raft, c')
  {
    var n := l.raft;
    StayPath(c);
    p, c' := [c], c;
    match e {
      case Prop(m) =>
        c' := StepPath(c, i, n, m.(from := i), Propose(i, m.entries));
        p := [c, c'];
      case Recv(m) =>
        if !Dropped(n, m) {
          c' := StepPath(c, i, n, m, Deliver(m));
          p := [c, c'];
        }
      case Conf(ccs) => p, c' := ConfPath(c, i, n, ccs);
      case Tick(fires) => p, c' := TickPath(c, i, n, fires);
      case Adv => p, c' := AdvancePath(c, i, n, l.stepsOnAdvance);
      case Status =>
    }
  }

  /** Accepting the Ready sends nothing new and keeps the node. */
  lemma TakeRel(c: Cluster, i: nat, l: Loop, maxApplying: pos)
    requires LoopRel(c, i, l) && l.raft.id == i && Enabled(Top(l, maxApplying), TakeReady)
    ensures LoopRel(c, i, Turn(l, TakeReady, maxApplying))
    ensures Elements(Top(l, maxApplying).rd.messages) <= c.net
  {
    TopFresh(l, maxApplying);
    KeepSelects(l.raft.msgsAfterAppend, ToSelf(i));
    KeepSelects(l.raft.msgsAfterAppend, ToOthers(i));
  }

  lemma {:induction false} KeepSelects(ms: seq<Message>, kind: Kind)
    ensures forall m :: m in Keep(ms, kind) ==> m in ms && Is(m, kind)
  {
    if ms != [] {
      KeepSelects(ms[..|ms| - 1], kind);
    }
  }

  /** After any other arm the loop is related to where its path leads. */
  lemma ArmRel(c: Cluster, i: nat, l: Loop, e: Select, c': Cluster, maxApplying: pos)
    requires LoopRel(c, i, l) && e != TakeReady && Enabled(Top(l, maxApplying), e)
    requires Moved(c, i, Turn(l, e, maxApplying).raft, c')
    ensures LoopRel(c', i, Turn(l, e, maxApplying))
  {
    TopFresh(l, maxApplying);
    ArmAppends(Top(l, maxApplying), e);
    ArmSteps(Top(l, maxApplying), e);
  }

  /** Nothing changes for the other nodes. */
  lemma RestRel(s: System, c: Cluster, i: nat, n: NodeState, c': Cluster, l: Loop, more: set<Message>)
    requires Rel(s, c) && i in s.loops && Moved(c, i, n, c') && LoopRel(c', i, l) && more <= c'.net
    ensures Rel(s.(loops := s.loops[i := l], released := s.released + more), c')
  {
    hide Out, ChannelsOk, Flush;
    forall j | j in s.loops && j != i ensures LoopRel(c', j, s.loops[j]) {
      assert LoopRel(c, j, s.loops[j]);
    }
  }

  lemma TopRel(c: Cluster, i: nat, l: Loop, maxApplying: pos)
    requires LoopRel(c, i, l)
    ensures LoopRel(c, i, Top(l, maxApplying)) && Top(l, maxApplying).raft == l.raft
  {
    TopFresh(l, maxApplying);
  }

  lemma OwnId(c: Cluster, i: nat)
    requires Inv(c) && i in c.nodes
    ensures c.nodes[i].id == i
  {
    assert NodeOk(c, i);
  }

  /** Every turn of every node is simulated by steps of the cluster, none for those that only hand over. */
  lemma TurnSimulated(s: System, c: Cluster, i: nat, e: Select, s': System, maxApplying: pos)
    returns (p: seq<Cluster>, c': Cluster)
    requires Rel(s, c) && Inv(c) && SystemNext(s, i, e, s', maxApplying)
    ensures Path(p, c, c') && Rel(s', c')
  {
    hide Path, StepsAlong, Inv, Arm, Top, Out, ChannelsOk;
    var l := s.loops[i];
    var t := Top(l, maxApplying);
    assert LoopRel(c, i, l);
    OwnId(c, i);
    if e == TakeReady {
      StayPath(c);
      p, c' := [c], c;
      TakeRel(c, i, l, maxApplying);
      RestRel(s, c, i, l.raft, c', Turn(l, e, maxApplying), Elements(t.rd.messages));
    } else {
      TopRel(c, i, l, maxApplying);
      p, c' := ArmPath(s, c, i, t, e);
      ArmRel(c, i, l, e, c', maxApplying);
      RestRel(s, c, i, Turn(l, e, maxApplying).raft, c', Turn(l, e, maxApplying), {});
    }
  }

  // ---------------------------------------------------------------------
  // Runs.

  /** `at[k]` is the moment of the cluster's run that shows moment `k` of the deployment. */
  ghost predicate Shows(run: seq<Cluster>, at: seq<nat>, trace: seq<System>, n: nat) {
    && n <= |trace| && |at| == n
    && (forall k :: 0 <= k < n ==> at[k] < |run|)
    && (forall j, k :: 0 <= j <= k < n ==> at[j] <= at[k])
    && forall k :: 0 <= k < n ==> Rel(trace[k], run[at[k]])
  }

  lemma StartRel(s: System, peers: seq<nat>, payload: nat -> seq<byte>)
    requires SystemInit(s, peers, payload)
    ensures Rel(s, StartOf(s)) && IsRun([StartOf(s)], peers, payload)
  {
    hide Bootstrap, SetupOk, Step;
    var c := StartOf(s);
    InitInv(c, peers, payload);
    forall i | i in s.loops ensures LoopRel(c, i, s.loops[i]) {
      assert NodeOk(c, i);
    }
  }

  lemma ExtendRun(run: seq<Cluster>, peers: seq<nat>, payload: nat -> seq<byte>, p: seq<Cluster>, c': Cluster)
    returns (longer: seq<Cluster>)
    requires IsRun(run, peers, payload) && Path(p, run[|run| - 1], c')
    ensures IsRun(longer, peers, payload) && run <= longer && longer[|longer| - 1] == c'
  {
    longer := run + p[1..];
    JoinPaths(run, p, run[0], run[|run| - 1], c');
  }

  lemma ShowsNext(run: seq<Cluster>, at: seq<nat>, trace: seq<System>, n: nat, longer: seq<Cluster>)
    requires Shows(run, at, trace, n) && n < |trace| && run <= longer && longer != []
    requires Rel(trace[n], longer[|longer| - 1])
    ensures Shows(longer, at + [|longer| - 1], trace, n + 1)
  {
  }

  /** A run of the deployment is a run of the cluster, seen at some of its moments. */
  lemma {:induction false} Simulated(trace: seq<System>, peers: seq<nat>, payload: nat -> seq<byte>,
                                     maxApplying: pos, n: nat) returns (run: seq<Cluster>, at: seq<nat>)
    requires SystemRun(trace, peers, payload, maxApplying) && 1 <= n <= |trace|
    ensures IsRun(run, peers, payload) && Shows(run, at, trace, n) && at[n - 1] == |run| - 1
  {
    hide Inv, SystemNext, Rel, Path, Init, Turn, StepsAlong;
    if n == 1 {
      run, at := [StartOf(trace[0])], [0];
      StartRel(trace[0], peers, payload);
      return;
    }
    run, at := Simulated(trace, peers, payload, maxApplying, n - 1);
    assert SystemStepAt(trace, n - 2, maxApplying);
    var i, e :| SystemNext(trace[n - 2], i, e, trace[n - 1], maxApplying);
    RunInv(run, peers, payload, |run| - 1);
    var p, c' := TurnSimulated(trace[n - 2], run[|run| - 1], i, e, trace[n - 1], maxApplying);
    var longer := ExtendRun(run, peers, payload, p, c');
    ShowsNext(run, at, trace, n - 1, longer);
    run, at := longer, at + [|longer| - 1];
  }

  // ---------------------------------------------------------------------
  // What holds of the cluster holds of the deployment.

  lemma Related(trace: seq<System>, peers: seq<nat>, payload: nat -> seq<byte>, maxApplying: pos)
    returns (run: seq<Cluster>, at: seq<nat>)
    requires SystemRun(trace, peers, payload, maxApplying)
    ensures IsRun(run, peers, payload) && Shows(run, at, trace, |trace|)
  {
    run, at := Simulated(trace, peers, payload, maxApplying, |trace|);
  }

  ghost predicate LoopLeads(s: System, i: nat, t: nat) {
    i in s.loops && s.loops[i].raft.role == StateLeader && s.loops[i].raft.term == t
  }

  lemma LeadsThere(s: System, c: Cluster, i: nat, t: nat)
    requires Rel(s, c) && LoopLeads(s, i, t)
    ensures Leads(c, i, t) && c.nodes[i].log == s.loops[i].raft.log && c.nodes[i].tracked == s.loops[i].raft.tracked
  {
    assert LoopRel(c, i, s.loops[i]);
  }

  /** Election safety, whatever the nodes hold back. */
  lemma OneLeaderPerTerm(trace: seq<System>, peers: seq<nat>, payload: nat -> seq<byte>, maxApplying: pos,
                         j: nat, k: nat, a: nat, b: nat, t: nat)
    requires SystemRun(trace, peers, payload, maxApplying) && j <= k < |trace|
    requires LoopLeads(trace[j], a, t) && LoopLeads(trace[k], b, t)
    ensures a == b
  {
    var run, at := Related(trace, peers, payload, maxApplying);
    LeadsThere(trace[j], run[at[j]], a, t);
    LeadsThere(trace[k], run[at[k]], b, t);
    ElectionSafety(run, peers, payload, at[j], at[k], a, b, t);
  }

  /** Log matching, between any two moments. */
  lemma LogsAgree(trace: seq<System>, peers: seq<nat>, payload: nat -> seq<byte>, maxApplying: pos,
                  j: nat, k: nat, a: nat, b: nat, i: nat)
    requires SystemRun(trace, peers, payload, maxApplying) && j <= k < |trace|
    requires a in trace[j].loops && b in trace[k].loops
    requires 1 <= i <= |trace[j].loops[a].raft.log| && i <= |trace[k].loops[b].raft.log|
    requires trace[j].loops[a].raft.log[i - 1].term == trace[k].loops[b].raft.log[i - 1].term
    ensures trace[j].loops[a].raft.log[..i] == trace[k].loops[b].raft.log[..i]
  {
    var run, at := Related(trace, peers, payload, maxApplying);
    assert LoopRel(run[at[j]], a, trace[j].loops[a]) && LoopRel(run[at[k]], b, trace[k].loops[b]);
    LogMatching(run, peers, payload, at[j], at[k], a, b, i);
  }

  /** Leader completeness, for the matches that a leader has recorded before or after. */
  lemma LaterLeadersHold(trace: seq<System>, peers: seq<nat>, payload: nat -> seq<byte>, maxApplying: pos,
                         j: nat, k: nat, l: nat, t: nat, q: set<nat>, i: nat, l': nat, t': nat)
    requires SystemRun(trace, peers, payload, maxApplying) && j < |trace| && k < |trace|
    requires LoopLeads(trace[j], l, t) && LoopLeads(trace[k], l', t') && t < t'
    requires IsQuorum(q, trace[j].peers) && MatchedBy(trace[j].loops[l].raft, q, i)
    requires 1 <= i <= |trace[j].loops[l].raft.log| && trace[j].loops[l].raft.log[i - 1].term == t
    ensures Holds(trace[k].loops[l'].raft.log, trace[j].loops[l].raft.log, i)
  {
    var run, at := Related(trace, peers, payload, maxApplying);
    LeadsThere(trace[j], run[at[j]], l, t);
    LeadsThere(trace[k], run[at[k]], l', t');
    LeaderCompleteness(run, peers, payload, at[j], at[k], l, q, i, l', t');
  }

  /** No turn of any node panics: the precondition of Node.Choose holds along every run. */
  lemma TurnsNeverPanic(trace: seq<System>, peers: seq<nat>, payload: nat -> seq<byte>, maxApplying: pos,
                        k: nat, i: nat, e: Select)
    requires SystemRun(trace, peers, payload, maxApplying) && k < |trace| && i in trace[k].loops
    requires Offered(trace[k], i, e) && Enabled(Top(trace[k].loops[i], maxApplying), e)
    ensures !Turn(trace[k].loops[i], e, maxApplying).raft.fault
  {
    var s := trace[k];
    var run, at := Simulated(trace, peers, payload, maxApplying, k + 1);
    RunInv(run, peers, payload, |run| - 1);
    var s' := s.(loops := s.loops[i := Turn(s.loops[i], e, maxApplying)],
                 released := s.released + Elements(Released(Top(s.loops[i], maxApplying), e)));
    var p, c' := TurnSimulated(s, run[|run| - 1], i, e, s', maxApplying);
    PathKeeps(p, run[|run| - 1], c');
    assert LoopRel(c', i, s'.loops[i]) && NodeOk(c', i);
  }
}
