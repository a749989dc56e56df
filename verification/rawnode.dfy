/** RawNode and the loop that drives it, as objects. */
module RawNodes {
  import opened RaftTypes
  import opened TwoPartLog
  import opened Quorum
  import opened Tracker
  import opened ConfChange
  import opened RaftSpec
  import opened RaftNode
  import opened Queues
  import opened NodeLoop

  class RawNode {
    const raft: Raft
    const maxApplying: pos
    var stepsOnAdvance: seq<Message>

    ghost predicate Valid()
      reads this, raft, raft.raftLog, raft.raftLog.storage
    {
      raft.Valid()
    }

    constructor (raft: Raft, maxApplying: pos)
      requires raft.Valid()
      ensures Valid() && this.raft == raft && this.maxApplying == maxApplying && stepsOnAdvance == []
    {
      this.raft, this.maxApplying := raft, maxApplying;
      stepsOnAdvance := [];
    }

    /** The entries of a Ready: all that is in memory, which is the whole log, and the committed part of it. */
    method ReadyEntries() returns (entries: seq<Entry>, committed: seq<Entry>)
      requires Valid()
      ensures entries == raft.View().log
      ensures committed == LimitSize(raft.View().log[..raft.View().committed], maxApplying)
    {
      entries := raft.raftLog.NextUnstableEnts();
      assert raft.raftLog.storage.ents[1..1] == [];
      committed := raft.raftLog.NextCommittedEnts(maxApplying);
      assert raft.raftLog.Log()[0..raft.raftLog.committed] == raft.raftLog.Log()[..raft.raftLog.committed];
    }

    method ReadyWithoutAccept() returns (rd: Ready)
      requires Valid()
      ensures rd == ReadyOf(raft.View(), maxApplying)
    {
      var entries, committed := ReadyEntries();
      var messages := raft.msgs;
      var after := raft.msgsAfterAppend;
      var i := 0;
      while i < |after|
        invariant 0 <= i <= |after|
        invariant messages == raft.msgs + Keep(after[..i], ToOthers(raft.id))
      {
        assert after[..i + 1][..i] == after[..i];
        if after[i].to != raft.id {
          messages := messages + [after[i]];
        }
        i := i + 1;
      }
      assert after[..i] == after;
      rd := Ready(entries, committed, messages);
    }

    method AcceptReady()
      requires Valid() && stepsOnAdvance == []
      modifies this, raft`msgs, raft`msgsAfterAppend
      ensures Valid() && raft.View() == old(raft.View()).(msgs := [], msgsAfterAppend := [])
      ensures stepsOnAdvance == Keep(old(raft.msgsAfterAppend), ToSelf(raft.id))
    {
      if |stepsOnAdvance| != 0 {
        assert false;
      }
      var after := raft.msgsAfterAppend;
      var steps := [];
      var i := 0;
      while i < |after|
        invariant 0 <= i <= |after|
        invariant steps == Keep(after[..i], ToSelf(raft.id))
      {
        assert after[..i + 1][..i] == after[..i];
        if after[i].to == raft.id {
          steps := steps + [after[i]];
        }
        i := i + 1;
      }
      assert after[..i] == after;
      stepsOnAdvance := steps;
      raft.msgs := [];
      raft.msgsAfterAppend := [];
    }

    method Advance()
      requires Valid() && !StepAll(raft.View(), stepsOnAdvance).fault
      modifies this, raft, raft.raftLog
      ensures Valid() && raft.View() == StepAll(old(raft.View()), old(stepsOnAdvance))
      ensures stepsOnAdvance == []
    {
      var steps := stepsOnAdvance;
      ghost var goal := StepAll(raft.View(), steps);
      while steps != []
        invariant Valid() && StepAll(raft.View(), steps) == goal
        decreases |steps|
      {
        StepAllAppends(Step(raft.View(), steps[0]), steps[1..]);
        raft.Step(steps[0]);
        steps := steps[1..];
      }
      stepsOnAdvance := [];
    }

    method Tick(fires: bool)
      requires Valid() && !TickStep(raft.View(), fires).fault
      modifies raft, raft.raftLog
      ensures Valid() && raft.View() == TickStep(old(raft.View()), fires)
    {
      if fires {
        if raft.state == StateLeader {
          raft.Step(Msg(MsgBeat, 0).(from := raft.id));
        } else if raft.id in raft.tracked.trk && !raft.tracked.trk[raft.id].isLearner {
          raft.Step(Msg(MsgHup, 0).(from := raft.id));
        }
      }
    }
  }

  // ---------------------------------------------------------------------
  // The loop.

  ghost predicate EnabledAll(l: Loop, events: seq<Select>, maxApplying: pos)
    decreases |events|
  {
    events != [] ==>
      && Enabled(Top(l, maxApplying), events[0])
      && EnabledAll(Turn(l, events[0], maxApplying), events[1..], maxApplying)
  }

  ghost function TurnAll(l: Loop, events: seq<Select>, maxApplying: pos): Loop
    decreases |events|
  {
    if events == [] then l else TurnAll(Turn(l, events[0], maxApplying), events[1..], maxApplying)
  }

  lemma TurnFaults(l: Loop, e: Select, maxApplying: pos)
    requires l.raft.fault
    ensures Turn(l, e, maxApplying).raft.fault
  {
    if e != TakeReady {
      ArmAppends(Top(l, maxApplying), e);
    }
  }

  lemma {:induction false} TurnAllFaults(l: Loop, events: seq<Select>, maxApplying: pos)
    requires l.raft.fault
    ensures TurnAll(l, events, maxApplying).raft.fault
    decreases |events|
  {
    if events != [] {
      TurnFaults(l, events[0], maxApplying);
      TurnAllFaults(Turn(l, events[0], maxApplying), events[1..], maxApplying);
    }
  }

  lemma NextTurn(l: Loop, events: seq<Select>, maxApplying: pos)
    requires events != [] && EnabledAll(l, events, maxApplying) && !TurnAll(l, events, maxApplying).raft.fault
    ensures var next := Turn(l, events[0], maxApplying);
            && Enabled(Top(l, maxApplying), events[0]) && !next.raft.fault
            && EnabledAll(next, events[1..], maxApplying)
            && TurnAll(next, events[1..], maxApplying) == TurnAll(l, events, maxApplying)
  {
    if Turn(l, events[0], maxApplying).raft.fault {
      TurnAllFaults(Turn(l, events[0], maxApplying), events[1..], maxApplying);
    }
  }

  /** The moments of a run of the loop. */
  ghost function Moments(s: State, events: seq<Select>, maxApplying: pos): (trace: seq<State>)
    ensures |trace| == |events| + 1 && trace[0] == s
    decreases |events|
  {
    if events == [] then [s]
    else
      var l := Top(s.loop, maxApplying);
      var next := State(Arm(l, events[0]), Remember(s.hist, l, events[0], Arm(l, events[0])));
      [s] + Moments(next, events[1..], maxApplying)
  }

  lemma {:induction false} MomentsStep(s: State, events: seq<Select>, maxApplying: pos, k: nat)
    requires EnabledAll(s.loop, events, maxApplying) && k < |events|
    ensures LoopStepAt(Moments(s, events, maxApplying), k, maxApplying)
    decreases |events|
  {
    var l := Top(s.loop, maxApplying);
    var next := State(Arm(l, events[0]), Remember(s.hist, l, events[0], Arm(l, events[0])));
    var rest := Moments(next, events[1..], maxApplying);
    assert LoopNext(s, events[0], next, maxApplying);
    if k > 0 {
      MomentsStep(next, events[1..], maxApplying, k - 1);
      assert rest[k - 1] == Moments(s, events, maxApplying)[k] && rest[k] == Moments(s, events, maxApplying)[k + 1];
    }
  }

  lemma {:induction false} MomentsEnd(s: State, events: seq<Select>, maxApplying: pos)
    ensures Moments(s, events, maxApplying)[|events|].loop == TurnAll(s.loop, events, maxApplying)
    decreases |events|
  {
    if events != [] {
      var l := Top(s.loop, maxApplying);
      var next := State(Arm(l, events[0]), Remember(s.hist, l, events[0], Arm(l, events[0])));
      MomentsEnd(next, events[1..], maxApplying);
    }
  }

  /** What Node.Run does is a run of the loop, and every message is conserved in it. */
  lemma RunConserves(l: Loop, events: seq<Select>, maxApplying: pos)
    requires LoopInit(State(l, History([], [], [], []))) && EnabledAll(l, events, maxApplying)
    ensures var trace := Moments(State(l, History([], [], [], [])), events, maxApplying);
            && LoopRun(trace, maxApplying) && Conserved(trace[|events|])
            && trace[|events|].loop == TurnAll(l, events, maxApplying)
  {
    var s := State(l, History([], [], [], []));
    var trace := Moments(s, events, maxApplying);
    forall k: nat | k + 1 < |trace| ensures LoopStepAt(trace, k, maxApplying) {
      MomentsStep(s, events, maxApplying, k);
    }
    MessagesConserved(trace, maxApplying, |events|);
    MomentsEnd(s, events, maxApplying);
  }

  class Node {
    const rn: RawNode
    var rd: Ready
    var readyc: bool
    var advancec: bool
    var propc: bool
    var lead: nat

    ghost predicate Valid()
      reads this, rn, rn.raft, rn.raft.raftLog, rn.raft.raftLog.storage
    {
      rn.Valid()
    }

    ghost function View(): Loop
      requires Valid()
      reads this, rn, rn.raft, rn.raft.raftLog, rn.raft.raftLog.storage
    {
      Loop(rn.raft.View(), rn.stepsOnAdvance, rd, readyc, advancec, propc, lead)
    }

    constructor (rn: RawNode)
      requires rn.Valid() && rn.stepsOnAdvance == []
      ensures Valid() && this.rn == rn
      ensures View() == Loop(rn.raft.View(), [], NO_READY, false, false, false, NONE)
    {
      this.rn := rn;
      rd := NO_READY;
      readyc, advancec, propc, lead := false, false, false, NONE;
    }

    method Refresh()
      requires Valid()
      modifies this
      ensures Valid() && View() == Top(old(View()), rn.maxApplying)
    {
      if !advancec && (|rn.raft.msgs| > 0 || |rn.raft.msgsAfterAppend| > 0) {
        rd := rn.ReadyWithoutAccept();
        readyc := true;
      }
      if lead != rn.raft.lead {
        propc := rn.raft.lead != NONE;
        lead := rn.raft.lead;
      }
    }

    method ApplyConf(ccs: seq<ConfChangeSingle>)
      requires Valid() && !Arm(View(), Conf(ccs)).raft.fault
      modifies this`propc, rn.raft
      ensures Valid() && View() == Arm(old(View()), Conf(ccs))
    {
      var okBefore := rn.raft.id in rn.raft.tracked.trk;
      rn.raft.ApplyConfChange(ccs);
      var okAfter := rn.raft.id in rn.raft.tracked.trk;
      if okBefore && !okAfter {
        var voters := rn.raft.tracked.cfg.voters;
        if rn.raft.id !in voters.incoming && rn.raft.id !in voters.outgoing {
          propc := false;
        }
      }
    }

    /** One arm of the select. */
    method Choose(e: Select)
      requires Valid() && Enabled(View(), e) && !Arm(View(), e).raft.fault
      modifies this, rn, rn.raft, rn.raft.raftLog
      ensures Valid() && View() == Arm(old(View()), e)
    {
      hide RaftSpec.Step, RaftSpec.ApplyConfChange, TickStep, StepAll, LimitSize;
      match e {
        case Prop(m) => rn.raft.Step(m.(from := rn.raft.id));
        case Recv(m) =>
          if !(IsResponse(m.mtype) && m.from != LOCAL_APPEND_THREAD && m.from != LOCAL_APPLY_THREAD
               && m.from !in rn.raft.tracked.trk) {
            rn.raft.Step(m);
          }
        case Conf(ccs) => ApplyConf(ccs);
        case Tick(fires) => rn.Tick(fires);
        case TakeReady => Accept();
        case Adv => AdvancePast();
        case Status =>
      }
    }

    method Accept()
      requires Valid() && rn.stepsOnAdvance == []
      modifies this, rn, rn.raft
      ensures Valid() && View() == Arm(old(View()), TakeReady)
    {
      rn.AcceptReady();
      advancec, readyc := true, false;
    }

    method AdvancePast()
      requires Valid() && !Arm(View(), Adv).raft.fault
      modifies this, rn, rn.raft, rn.raft.raftLog
      ensures Valid() && View() == Arm(old(View()), Adv)
    {
      rn.Advance();
      rd, advancec := NO_READY, false;
    }

    /** The loop, for the choices it makes until it is stopped. */
    method Run(events: seq<Select>)
      requires Valid() && EnabledAll(View(), events, rn.maxApplying)
      requires !TurnAll(View(), events, rn.maxApplying).raft.fault
      modifies this, rn, rn.raft, rn.raft.raftLog
      ensures Valid() && View() == TurnAll(old(View()), events, rn.maxApplying)
    {
      var todo := events;
      ghost var goal := TurnAll(View(), todo, rn.maxApplying);
      while todo != []
        invariant Valid() && EnabledAll(View(), todo, rn.maxApplying)
        invariant TurnAll(View(), todo, rn.maxApplying) == goal
        decreases |todo|
      {
        NextTurn(View(), todo, rn.maxApplying);
        Refresh();
        Choose(todo[0]);
        todo := todo[1..];
      }
    }
  }
}
