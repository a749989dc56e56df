/** The select loop of a node: how queued messages reach the application or the node itself. */
module NodeLoop {
  import opened RaftTypes
  import opened Quorum
  import opened Tracker
  import opened ConfChange
  import opened RaftSpec
  import opened Queues

  datatype Ready = Ready(entries: seq<Entry>, committed: seq<Entry>, messages: seq<Message>)

  const NO_READY := Ready([], [], [])

  /** How a list of messages is sifted. */
  datatype Kind = AtOnce | AfterAppend | ToSelf(id: nat) | ToOthers(id: nat)

  predicate Is(m: Message, kind: Kind) {
    match kind
    case AtOnce => !WaitsForAppend(m.mtype)
    case AfterAppend => WaitsForAppend(m.mtype)
    case ToSelf(id) => m.to == id
    case ToOthers(id) => m.to != id
  }

  /** The messages of one kind, in order. */
  function Keep(ms: seq<Message>, kind: Kind): seq<Message> {
    if ms == [] then []
    else Keep(ms[..|ms| - 1], kind) + if Is(ms[|ms| - 1], kind) then [ms[|ms| - 1]] else []
  }

  lemma {:induction false} KeepJoins(a: seq<Message>, b: seq<Message>, kind: Kind)
    ensures Keep(a + b, kind) == Keep(a, kind) + Keep(b, kind)
    decreases |b|
  {
    if b == [] {
      assert a + b == a;
    } else {
      assert (a + b)[..|a + b| - 1] == a + b[..|b| - 1];
      KeepJoins(a, b[..|b| - 1], kind);
    }
  }

  ghost predicate All(ms: seq<Message>, kind: Kind) {
    forall k :: 0 <= k < |ms| ==> Is(ms[k], kind)
  }

  ghost predicate Nothing(ms: seq<Message>, kind: Kind) {
    forall k :: 0 <= k < |ms| ==> !Is(ms[k], kind)
  }

  lemma {:induction false} KeepAll(ms: seq<Message>, kind: Kind)
    requires All(ms, kind)
    ensures Keep(ms, kind) == ms
  {
    if ms != [] {
      KeepAll(ms[..|ms| - 1], kind);
    }
  }

  lemma {:induction false} KeepNothing(ms: seq<Message>, kind: Kind)
    requires Nothing(ms, kind)
    ensures Keep(ms, kind) == []
  {
    if ms != [] {
      KeepNothing(ms[..|ms| - 1], kind);
    }
  }

  lemma {:induction false} KeepIs(ms: seq<Message>, kind: Kind, other: Kind)
    requires All(ms, other)
    ensures All(Keep(ms, kind), other) && All(Keep(ms, kind), kind)
  {
    if ms != [] {
      KeepIs(ms[..|ms| - 1], kind, other);
    }
  }

  // ---------------------------------------------------------------------
  // One turn of the loop.

  /** `rd` is what readyc offers; `advancec` is set between an accepted Ready and its Advance. */
  datatype Loop = Loop(
    raft: NodeState, stepsOnAdvance: seq<Message>, rd: Ready,
    readyc: bool, advancec: bool, propc: bool, lead: nat)

  datatype Select =
    | Prop(m: Message)
    | Recv(m: Message)
    | Conf(ccs: seq<ConfChangeSingle>)
    | Tick(fires: bool)          // whether the timeout of the current role has passed
    | TakeReady
    | Adv
    | Status

  predicate HasReady(n: NodeState) { n.msgs != [] || n.msgsAfterAppend != [] }

  /** readyWithoutAccept with async storage writes off, on a log whose tail starts at 1. */
  function ReadyOf(n: NodeState, maxApplying: pos): Ready {
    Ready(n.log,
          LimitSize(n.log[..if n.committed <= |n.log| then n.committed else |n.log|], maxApplying),
          n.msgs + Keep(n.msgsAfterAppend, ToOthers(n.id)))
  }

  /** The top of the loop: refresh the offered Ready and the proposal channel. */
  function Top(l: Loop, maxApplying: pos): Loop {
    var l1 := if !l.advancec && HasReady(l.raft) then l.(rd := ReadyOf(l.raft, maxApplying), readyc := true) else l;
    if l1.lead != l1.raft.lead then l1.(propc := l1.raft.lead != NONE, lead := l1.raft.lead) else l1
  }

  predicate Enabled(l: Loop, e: Select) {
    match e
    case Prop(m) => l.propc && m.mtype == MsgProp
    case TakeReady => l.readyc
    case Adv => l.advancec
    case _ => true
  }

  const LOCAL_APPEND_THREAD: nat := 0xffff_ffff_ffff_ffff
  const LOCAL_APPLY_THREAD: nat := 0xffff_ffff_ffff_fffe

  predicate IsResponse(t: MessageType) {
    t == MsgAppResp || t == MsgVoteResp || t == MsgHeartbeatResp || t == MsgPreVoteResp
  }

  /** A response from a node that is not tracked is dropped before it is stepped. */
  predicate Dropped(n: NodeState, m: Message) {
    IsResponse(m.mtype) && m.from != LOCAL_APPEND_THREAD && m.from != LOCAL_APPLY_THREAD && m.from !in n.tracked.trk
  }

  ghost function TickStep(n: NodeState, fires: bool): NodeState {
    if !fires then n
    else if n.role == StateLeader then Step(n, Msg(MsgBeat, 0).(from := n.id))
    else if Promotable(n) then Step(n, Msg(MsgHup, 0).(from := n.id))
    else n
  }

  ghost function StepAll(n: NodeState, ms: seq<Message>): NodeState
    decreases |ms|
  {
    if ms == [] then n else StepAll(Step(n, ms[0]), ms[1..])
  }

  /** A node that was a member and is no voter any more takes no proposals. */
  predicate Removed(before: NodeState, after: NodeState) {
    && before.id in before.tracked.trk && before.id !in after.tracked.trk
    && before.id !in after.tracked.cfg.voters.incoming && before.id !in after.tracked.cfg.voters.outgoing
  }

  ghost function Arm(l: Loop, e: Select): Loop {
    match e
    case Prop(m) => l.(raft := Step(l.raft, m.(from := l.raft.id)))
    case Recv(m) => if Dropped(l.raft, m) then l else l.(raft := Step(l.raft, m))
    case Conf(ccs) =>
      var r := ApplyConfChange(l.raft, ccs);
      l.(raft := r, propc := l.propc && !Removed(l.raft, r))
    case Tick(fires) => l.(raft := TickStep(l.raft, fires))
    case TakeReady =>
      // "two accepted Ready structs without call to Advance" would be a panic
      var n := if l.stepsOnAdvance != [] then Fault(l.raft) else l.raft;
      l.(raft := n.(msgs := [], msgsAfterAppend := []),
         stepsOnAdvance := l.stepsOnAdvance + Keep(n.msgsAfterAppend, ToSelf(n.id)),
         advancec := true, readyc := false)
    case Adv => l.(raft := StepAll(l.raft, l.stepsOnAdvance), stepsOnAdvance := [], rd := NO_READY, advancec := false)
    case Status => l
  }

  ghost function Turn(l: Loop, e: Select, maxApplying: pos): Loop { Arm(Top(l, maxApplying), e) }

  // ---------------------------------------------------------------------
  // The node only adds to its queues between two Readys.

  lemma TickAppends(n: NodeState, fires: bool)
    ensures Appends(n, TickStep(n, fires))
  {
    StepAppends(n, Msg(MsgBeat, 0).(from := n.id));
    StepAppends(n, Msg(MsgHup, 0).(from := n.id));
  }

  lemma {:induction false} StepAllAppends(n: NodeState, ms: seq<Message>)
    ensures Appends(n, StepAll(n, ms))
    decreases |ms|
  {
    if ms != [] {
      StepAppends(n, ms[0]);
      StepAllAppends(Step(n, ms[0]), ms[1..]);
      AppendsTrans(n, Step(n, ms[0]), StepAll(Step(n, ms[0]), ms[1..]));
    }
  }

  lemma ArmAppends(l: Loop, e: Select)
    requires e != TakeReady
    ensures Appends(l.raft, Arm(l, e).raft)
  {
    match e {
      case Prop(m) => StepAppends(l.raft, m.(from := l.raft.id));
      case Recv(m) => StepAppends(l.raft, m);
      case Conf(ccs) => ApplyAppends(l.raft, ccs);
      case Tick(fires) => TickAppends(l.raft, fires);
      case Adv => StepAllAppends(l.raft, l.stepsOnAdvance);
      case Status =>
    }
  }

  // ---------------------------------------------------------------------
  // Runs, with everything that was ever sent, handed out and stepped.

  /**
   * `sent` and `sentAfter` are the messages that `send` has put into the two queues, `out` the Readys
   * that were accepted, `stepped` the messages that Advance has stepped.
   */
  datatype History = History(sent: seq<Message>, sentAfter: seq<Message>, out: seq<Ready>, stepped: seq<Message>)

  datatype State = State(loop: Loop, hist: History)

  function Since(before: seq<Message>, after: seq<Message>): seq<Message> {
    if |before| <= |after| then after[|before|..] else []
  }

  ghost function Remember(h: History, l: Loop, e: Select, r: Loop): History {
    match e
    case TakeReady => h.(out := h.out + [l.rd])
    case _ =>
      History(h.sent + Since(l.raft.msgs, r.raft.msgs),
              h.sentAfter + Since(l.raft.msgsAfterAppend, r.raft.msgsAfterAppend),
              h.out, h.stepped + if e == Adv then l.stepsOnAdvance else [])
  }

  ghost predicate LoopNext(s: State, e: Select, s': State, maxApplying: pos) {
    var l := Top(s.loop, maxApplying);
    Enabled(l, e) && s' == State(Arm(l, e), Remember(s.hist, l, e, Arm(l, e)))
  }

  ghost predicate LoopInit(s: State) {
    && s.hist == History([], [], [], [])
    && s.loop.raft.msgs == [] && s.loop.raft.msgsAfterAppend == [] && !s.loop.raft.fault
    && s.loop.stepsOnAdvance == [] && !s.loop.readyc && !s.loop.advancec
  }

  ghost predicate LoopSteps(s: State, s': State, maxApplying: pos) { exists e :: LoopNext(s, e, s', maxApplying) }

  ghost predicate LoopStepAt(trace: seq<State>, k: nat, maxApplying: pos)
    requires k + 1 < |trace|
  {
    LoopSteps(trace[k], trace[k + 1], maxApplying)
  }

  ghost predicate LoopRun(trace: seq<State>, maxApplying: pos) {
    && trace != [] && LoopInit(trace[0])
    && forall k: nat {:trigger LoopStepAt(trace, k, maxApplying)} :: k + 1 < |trace| ==> LoopStepAt(trace, k, maxApplying)
  }

  /** The messages of the accepted Readys, one after the other. */
  function HandedOut(out: seq<Ready>): seq<Message> {
    if out == [] then [] else HandedOut(out[..|out| - 1]) + out[|out| - 1].messages
  }

  /** Every queued message is of its queue's kind. */
  ghost predicate QueuesTyped(n: NodeState) {
    All(n.msgs, AtOnce) && All(n.msgs, ToOthers(n.id)) && All(n.msgsAfterAppend, AfterAppend)
  }

  /** Whatever was sent has been handed out, or waits in its queue, in the order of sending. */
  ghost predicate Conserved(s: State) {
    var (n, h, id) := (s.loop.raft, s.hist, s.loop.raft.id);
    && h.sent == Keep(HandedOut(h.out), AtOnce) + n.msgs
    && Keep(h.sentAfter, ToOthers(id)) == Keep(HandedOut(h.out), AfterAppend) + Keep(n.msgsAfterAppend, ToOthers(id))
    && Keep(h.sentAfter, ToSelf(id)) == h.stepped + s.loop.stepsOnAdvance + Keep(n.msgsAfterAppend, ToSelf(id))
  }

  /** A Ready is offered only while none is being handled, and then something is in it. */
  ghost predicate ChannelsOk(l: Loop) {
    && (l.readyc ==> !l.advancec && HasReady(l.raft))
    && (!l.advancec ==> l.stepsOnAdvance == [])
  }

  ghost predicate LoopInv(s: State) {
    QueuesTyped(s.loop.raft) && Conserved(s) && ChannelsOk(s.loop)
  }

  // ---------------------------------------------------------------------
  // The invariant is kept.

  lemma TopFresh(l: Loop, maxApplying: pos)
    requires ChannelsOk(l)
    ensures var t := Top(l, maxApplying);
            && ChannelsOk(t) && t.raft == l.raft && t.stepsOnAdvance == l.stepsOnAdvance
            && (t.readyc ==> t.rd == ReadyOf(l.raft, maxApplying) && t.stepsOnAdvance == [])
  {
  }

  lemma AppendsTyped(n: NodeState, r: NodeState)
    requires Appends(n, r) && QueuesTyped(n)
    ensures QueuesTyped(r)
    ensures r.msgs == n.msgs + Since(n.msgs, r.msgs)
    ensures r.msgsAfterAppend == n.msgsAfterAppend + Since(n.msgsAfterAppend, r.msgsAfterAppend)
  {
    forall k: nat | k < |r.msgs| ensures Is(r.msgs[k], AtOnce) && Is(r.msgs[k], ToOthers(r.id)) {
      if k < |n.msgs| {
        assert r.msgs[k] == n.msgs[k] && Is(n.msgs[k], AtOnce) && Is(n.msgs[k], ToOthers(n.id));
      } else {
        assert TypedAt(r.msgs, k, n.id, false);
      }
    }
    forall k: nat | k < |r.msgsAfterAppend| ensures Is(r.msgsAfterAppend[k], AfterAppend) {
      if k < |n.msgsAfterAppend| {
        assert r.msgsAfterAppend[k] == n.msgsAfterAppend[k] && Is(n.msgsAfterAppend[k], AfterAppend);
      } else {
        assert TypedAt(r.msgsAfterAppend, k, n.id, true);
      }
    }
  }

  /** What is sent later goes to the end of its queue. */
  lemma Balanced(sent: seq<Message>, gone: seq<Message>, queue: seq<Message>, later: seq<Message>, kind: Kind)
    requires Keep(sent, kind) == gone + Keep(queue, kind)
    ensures Keep(sent + later, kind) == gone + Keep(queue + later, kind)
  {
    KeepJoins(sent, later, kind);
    KeepJoins(queue, later, kind);
    SentGrows(gone, Keep(queue, kind), Keep(later, kind));
  }

  /** Sending keeps the balance, whether or not Advance steps messages meanwhile. */
  lemma SendingConserves(s: State, s': State)
    requires Conserved(s) && QueuesTyped(s.loop.raft) && Appends(s.loop.raft, s'.loop.raft)
    requires s'.hist.sent == s.hist.sent + Since(s.loop.raft.msgs, s'.loop.raft.msgs)
    requires s'.hist.sentAfter == s.hist.sentAfter + Since(s.loop.raft.msgsAfterAppend, s'.loop.raft.msgsAfterAppend)
    requires s'.hist.out == s.hist.out
    requires s'.hist.stepped + s'.loop.stepsOnAdvance == s.hist.stepped + s.loop.stepsOnAdvance
    ensures Conserved(s')
  {
    var n, r, h := s.loop.raft, s'.loop.raft, s.hist;
    AppendsTyped(n, r);
    var later := Since(n.msgsAfterAppend, r.msgsAfterAppend);
    Balanced(h.sentAfter, Keep(HandedOut(h.out), AfterAppend), n.msgsAfterAppend, later, ToOthers(n.id));
    Balanced(h.sentAfter, h.stepped + s.loop.stepsOnAdvance, n.msgsAfterAppend, later, ToSelf(n.id));
    SentGrows(Keep(HandedOut(h.out), AtOnce), n.msgs, Since(n.msgs, r.msgs));
  }

  lemma SentGrows(gone: seq<Message>, queue: seq<Message>, later: seq<Message>)
    ensures (gone + queue) + later == gone + (queue + later)
  {
  }

  /** Accepting the offered Ready moves both queues into it and into the messages to step. */
  lemma TakingConserves(s: State, l: Loop, maxApplying: pos)
    requires Conserved(s) && QueuesTyped(s.loop.raft)
    requires l.raft == s.loop.raft && l.stepsOnAdvance == s.loop.stepsOnAdvance
    requires l.rd == ReadyOf(l.raft, maxApplying) && l.stepsOnAdvance == []
    ensures Conserved(State(Arm(l, TakeReady), Remember(s.hist, l, TakeReady, Arm(l, TakeReady))))
  {
    hide All, Is, LimitSize, Step, TickStep;
    var n := l.raft;
    var others := Keep(n.msgsAfterAppend, ToOthers(n.id));
    HandedSplits(s.hist.out, l.rd, n);
    var s' := State(Arm(l, TakeReady), Remember(s.hist, l, TakeReady, Arm(l, TakeReady)));
    assert s'.hist.out == s.hist.out + [l.rd];
    assert Keep(HandedOut(s.hist.out), AtOnce) + n.msgs + [] == s.hist.sent;
  }

  lemma OneMoreHanded(out: seq<Ready>, rd: Ready, kind: Kind)
    ensures Keep(HandedOut(out + [rd]), kind) == Keep(HandedOut(out), kind) + Keep(rd.messages, kind)
  {
    assert (out + [rd])[..|out|] == out;
    KeepJoins(HandedOut(out), rd.messages, kind);
  }

  /** A Ready holds the messages of the first queue, and those for others of the second. */
  lemma ReadySifts(n: NodeState, others: seq<Message>)
    requires QueuesTyped(n) && others == Keep(n.msgsAfterAppend, ToOthers(n.id))
    ensures Keep(n.msgs + others, AtOnce) == n.msgs && Keep(n.msgs + others, AfterAppend) == others
  {
    KeepIs(n.msgsAfterAppend, ToOthers(n.id), AfterAppend);
    KeepJoins(n.msgs, others, AtOnce);
    KeepJoins(n.msgs, others, AfterAppend);
    KeepAll(n.msgs, AtOnce);
    KeepNothing(n.msgs, AfterAppend);
    KeepAll(others, AfterAppend);
    KeepNothing(others, AtOnce);
  }

  lemma HandedSplits(out: seq<Ready>, rd: Ready, n: NodeState)
    requires QueuesTyped(n) && rd.messages == n.msgs + Keep(n.msgsAfterAppend, ToOthers(n.id))
    ensures Keep(HandedOut(out + [rd]), AtOnce) == Keep(HandedOut(out), AtOnce) + n.msgs
    ensures Keep(HandedOut(out + [rd]), AfterAppend)
            == Keep(HandedOut(out), AfterAppend) + Keep(n.msgsAfterAppend, ToOthers(n.id))
  {
    ReadySifts(n, Keep(n.msgsAfterAppend, ToOthers(n.id)));
    OneMoreHanded(out, rd, AtOnce);
    OneMoreHanded(out, rd, AfterAppend);
  }

  lemma TakingKeeps(s: State, s': State, maxApplying: pos)
    requires LoopInv(s) && LoopNext(s, TakeReady, s', maxApplying)
    ensures LoopInv(s')
  {
    TopFresh(s.loop, maxApplying);
    TakingConserves(s, Top(s.loop, maxApplying), maxApplying);
  }

  /** What a turn that hands nothing out leaves behind. */
  ghost predicate Sends(l: Loop, h: History, r: Loop, h': History) {
    && Appends(l.raft, r.raft) && ChannelsOk(r)
    && h'.sent == h.sent + Since(l.raft.msgs, r.raft.msgs)
    && h'.sentAfter == h.sentAfter + Since(l.raft.msgsAfterAppend, r.raft.msgsAfterAppend)
    && h'.out == h.out
    && h'.stepped + r.stepsOnAdvance == h.stepped + l.stepsOnAdvance
  }

  lemma ArmSends(l: Loop, e: Select, h: History)
    requires ChannelsOk(l) && e != TakeReady && Enabled(l, e)
    ensures Sends(l, h, Arm(l, e), Remember(h, l, e, Arm(l, e)))
  {
    ArmAppends(l, e);
    ArmSteps(l, e);
    RememberSends(l, e, h, Arm(l, e));
  }

  lemma RememberSends(l: Loop, e: Select, h: History, r: Loop)
    requires e != TakeReady && Appends(l.raft, r.raft) && ChannelsOk(r)
    requires r.stepsOnAdvance == (if e == Adv then [] else l.stepsOnAdvance)
    ensures Sends(l, h, r, Remember(h, l, e, r))
  {
    assert (h.stepped + l.stepsOnAdvance) + [] == h.stepped + l.stepsOnAdvance;
  }

  /** Any other turn only appends to the queues, and leaves the channels in order. */
  lemma SendingKeeps(s: State, l: Loop, s': State)
    requires QueuesTyped(s.loop.raft) && Conserved(s) && Sends(l, s.hist, s'.loop, s'.hist)
    requires l.raft == s.loop.raft && l.stepsOnAdvance == s.loop.stepsOnAdvance
    ensures LoopInv(s')
  {
    AppendsTyped(l.raft, s'.loop.raft);
    SendingConserves(s, s');
  }

  lemma ArmSteps(l: Loop, e: Select)
    requires e != TakeReady && ChannelsOk(l) && Enabled(l, e) && Appends(l.raft, Arm(l, e).raft)
    ensures var r := Arm(l, e);
            && r.stepsOnAdvance == (if e == Adv then [] else l.stepsOnAdvance)
            && r.readyc == l.readyc && r.advancec == (l.advancec && e != Adv) && ChannelsOk(r)
  {
  }

  lemma TurnKeeps(s: State, e: Select, s': State, maxApplying: pos)
    requires LoopInv(s) && LoopNext(s, e, s', maxApplying)
    ensures LoopInv(s')
  {
    if e == TakeReady {
      TakingKeeps(s, s', maxApplying);
    } else {
      TopFresh(s.loop, maxApplying);
      ArmSends(Top(s.loop, maxApplying), e, s.hist);
      SendingKeeps(s, Top(s.loop, maxApplying), s');
    }
  }

  lemma {:induction false} LoopRunInv(trace: seq<State>, maxApplying: pos, k: nat)
    requires LoopRun(trace, maxApplying) && k < |trace|
    ensures LoopInv(trace[k])
  {
    hide Arm;
    if k > 0 {
      LoopRunInv(trace, maxApplying, k - 1);
      assert LoopStepAt(trace, k - 1, maxApplying);
      var e :| LoopNext(trace[k - 1], e, trace[k], maxApplying);
      TurnKeeps(trace[k - 1], e, trace[k], maxApplying);
    }
  }

  // ---------------------------------------------------------------------
  // The theorems.

  /** At every moment of every run each sent message is in exactly one place, in the order of sending. */
  lemma MessagesConserved(trace: seq<State>, maxApplying: pos, k: nat)
    requires LoopRun(trace, maxApplying) && k < |trace|
    ensures Conserved(trace[k])
  {
    LoopRunInv(trace, maxApplying, k);
  }

  /** Once a Ready has been accepted and advanced past, nothing sent before is still waiting. */
  lemma AdvancedMeansDelivered(trace: seq<State>, maxApplying: pos, k: nat)
    requires LoopRun(trace, maxApplying) && k < |trace| && !trace[k].loop.advancec && !HasReady(trace[k].loop.raft)
    ensures var h := trace[k].hist;
            && h.sent == Keep(HandedOut(h.out), AtOnce)
            && Keep(h.sentAfter, ToOthers(trace[k].loop.raft.id)) == Keep(HandedOut(h.out), AfterAppend)
            && Keep(h.sentAfter, ToSelf(trace[k].loop.raft.id)) == h.stepped
  {
    LoopRunInv(trace, maxApplying, k);
  }

  /**
   * Whenever the loop can accept a Ready, it offers the node's present state, and no self-addressed
   * message of an earlier Ready is left: the "two accepted Ready structs" panic is out of reach.
   */
  lemma ReadyIsFresh(trace: seq<State>, maxApplying: pos, k: nat)
    requires LoopRun(trace, maxApplying) && k < |trace|
    requires Top(trace[k].loop, maxApplying).readyc
    ensures var l := Top(trace[k].loop, maxApplying);
            && l.rd == ReadyOf(l.raft, maxApplying) && HasReady(l.raft)
            && l.stepsOnAdvance == [] && !l.advancec
            && (l.raft.fault <==> Arm(l, TakeReady).raft.fault)
  {
    LoopRunInv(trace, maxApplying, k);
    TopFresh(trace[k].loop, maxApplying);
  }
}
