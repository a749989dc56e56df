/** The raft object: fields updated in place, each method doing exactly what its function specifies. */
module RaftNode {
  import opened RaftTypes
  import LogSpec
  import opened TwoPartLog
  import opened Quorum
  import opened Tracker
  import opened ConfChange
  import opened ConfEntry
  import ConfProposal
  import opened RaftSpec
  import opened Queues

  lemma {:induction false} AddPeersAppends(n: NodeState, peers: seq<nat>)
    ensures Appends(n, AddPeers(n, peers))
    decreases |peers|
  {
    if peers != [] {
      var n1 := RaftSpec.ApplyConfChange(n, [ConfChangeSingle(ADD_NODE, peers[0])]);
      ApplyAppends(n, [ConfChangeSingle(ADD_NODE, peers[0])]);
      AddPeersAppends(n1, peers[1..]);
      AppendsTrans(n, n1, AddPeers(n1, peers[1..]));
    }
  }

  /** The first `i` proposed entries have been screened into `es`, the rest are as proposed. */
  ghost predicate HalfScreened(proposed: seq<Entry>, es: seq<Entry>, i: nat, pending: nat, applied: nat, last: nat,
                               joint: bool, goal: (seq<Entry>, nat))
    requires i <= |proposed| == |es|
  {
    var rest := Screen(proposed[i..], pending, applied, last + i, joint);
    es[i..] == proposed[i..] && goal.0 == es[..i] + rest.0 && goal.1 == rest.1
  }

  /** One turn of the visit that sends appends. */
  lemma NextAppend(n: NodeState, ids: seq<nat>, sendIfEmpty: bool)
    requires ids != [] && !AppendToAll(n, ids, sendIfEmpty).fault
    ensures var n1 := if ids[0] == n.id then n else RaftSpec.MaybeSendAppend(n, ids[0], sendIfEmpty).0;
            !n1.fault && AppendToAll(n1, ids[1..], sendIfEmpty) == AppendToAll(n, ids, sendIfEmpty)
  {
    var n1 := if ids[0] == n.id then n else RaftSpec.MaybeSendAppend(n, ids[0], sendIfEmpty).0;
    AppendToAllAppends(n1, ids[1..], sendIfEmpty);
  }

  /** One turn of the visit that sends heartbeats. */
  lemma NextHeartbeat(n: NodeState, ids: seq<nat>)
    requires ids != [] && !HeartbeatToAll(n, ids).fault
    ensures var n1 := if ids[0] == n.id then n else RaftSpec.SendHeartbeat(n, ids[0]);
            !n1.fault && HeartbeatToAll(n1, ids[1..]) == HeartbeatToAll(n, ids)
  {
    var n1 := if ids[0] == n.id then n else RaftSpec.SendHeartbeat(n, ids[0]);
    HeartbeatToAllAppends(n1, ids[1..]);
  }

  /** One turn of the loop that asks for votes. */
  lemma NextRequest(n: NodeState, ids: seq<nat>, t: MessageType, term: nat)
    requires t == MsgVote || t == MsgPreVote
    requires ids != [] && !RequestVotes(n, ids, t, term).fault
    ensures var m := if ids[0] == n.id then Msg(RespType(t), ids[0]).(term := term) else VoteRequest(n, t, ids[0], term);
            !RaftSpec.Send(n, m).fault
            && RequestVotes(RaftSpec.Send(n, m), ids[1..], t, term) == RequestVotes(n, ids, t, term)
  {
    var m := if ids[0] == n.id then Msg(RespType(t), ids[0]).(term := term) else VoteRequest(n, t, ids[0], term);
    RequestVotesAppends(RaftSpec.Send(n, m), ids[1..], t, term);
  }

  /** One turn of the proposal loop. */
  lemma HalfScreenedNext(proposed: seq<Entry>, es: seq<Entry>, i: nat, pending: nat, applied: nat, last: nat,
                         joint: bool, goal: (seq<Entry>, nat), head: Entry, pending': nat)
    requires i < |proposed| == |es| && HalfScreened(proposed, es, i, pending, applied, last, joint, goal)
    requires var refuse := IsConfChange(es[i]) && Refused(es[i], pending, applied, joint);
             && head == (if refuse then EMPTY_ENTRY else es[i])
             && pending' == (if IsConfChange(es[i]) && !refuse then last + i + 1 else pending)
    ensures HalfScreened(proposed, es[i := head], i + 1, pending', applied, last, joint, goal)
  {
    assert es[i] == es[i..][0] == proposed[i];
    assert proposed[i..][1..] == proposed[i + 1..];
    var rest := Screen(proposed[i + 1..], pending', applied, last + i + 1, joint).0;
    assert es[..i] + ([head] + rest) == es[i := head][..i + 1] + rest;
  }

  /** What is sent to a peer whose acknowledgement was recorded. */
  ghost function SentAfter(n: NodeState, to: nat, oldPaused: bool): NodeState {
    var n1 := if oldPaused then RaftSpec.SendAppend(n, to) else n;
    if n.id != to then RaftSpec.MaybeSendAppend(n1, to, false).0 else n1
  }

  ghost function AckResult(n: NodeState, from: nat, index: nat, pr: Progress): NodeState {
    var (p, updated) := pr.MaybeUpdate(index);
    if updated || (p.matched == index && p.state == StateProbe)
    then SentAfter(SetProgress(n, from, Unblocked(p)), from, pr.IsPaused())
    else SetProgress(n, from, p)
  }

  /** Sending to a peer in replicate state leaves it there. */
  lemma StaysReplicating(n: NodeState, to: nat)
    requires to in n.tracked.trk && n.tracked.trk[to].state == StateReplicate
    ensures var r := RaftSpec.SendAppend(n, to);
            to in r.tracked.trk && r.tracked.trk[to].state == StateReplicate && r.id == n.id
  {
    hide RaftSpec.Send, AppMsg, EntriesFor;
    var p := n.tracked.trk[to].UpdateOnEntriesSend(|EntriesFor(n, n.tracked.trk[to])|);
    if p.Some? && 1 <= n.tracked.trk[to].next <= |n.log| + 1 {
      var n1 := SetProgress(n, to, p.value);
      SendKeepsTracked(n1, AppMsg(n, to, n.tracked.trk[to].next - 1, EntriesFor(n, n.tracked.trk[to])));
    }
  }

  lemma SendKeepsTracked(n: NodeState, m: Message)
    ensures RaftSpec.Send(n, m).tracked == n.tracked && RaftSpec.Send(n, m).id == n.id
  {
  }

  /** With the commit stub in place, an acknowledgement never broadcasts. */
  lemma AckCases(n: NodeState, m: Message)
    requires m.from in n.tracked.trk && !m.reject
    ensures RaftSpec.HandleAppendResponse(n, m)
            == AckResult(n, m.from, m.index, n.tracked.trk[m.from].(recentActive := true))
  {
  }

  /** The visited progresses have been reset, the others are as they were. */
  ghost predicate HalfReset(was: map<nat, Progress>, trk: map<nat, Progress>, visited: set<nat>, self: nat, last: nat)
    requires trk.Keys == was.Keys
  {
    forall v :: v in was ==> trk[v] == if v in visited then ResetProgress(v, self, last, was[v]) else was[v]
  }

  lemma ResetOne(was: map<nat, Progress>, trk: map<nat, Progress>, visited: set<nat>, self: nat, last: nat, v: nat)
    requires trk.Keys == was.Keys && HalfReset(was, trk, visited, self, last) && v in was && v !in visited
    ensures trk[v] == was[v]
    ensures HalfReset(was, trk[v := ResetProgress(v, self, last, was[v])], visited + {v}, self, last)
  {
  }

  /** Going through the ids in order reaches a new one each time, and in the end all of them. */
  lemma NextVisited(ids: seq<nat>, k: nat)
    requires Increasing(ids) && k < |ids|
    ensures ids[k] in Elems(ids) && ids[k] !in Elems(ids[..k])
    ensures Elems(ids[..k + 1]) == Elems(ids[..k]) + {ids[k]}
  {
    assert ids[..k + 1] == ids[..k] + [ids[k]];
  }

  class Raft {
    const id: nat
    const preVote: bool
    const checkQuorum: bool
    const maxMsgSize: nat
    const raftLog: RaftLog
    var term: nat
    var vote: nat
    var state: Role
    var lead: nat
    var votes: map<nat, bool>
    var tracked: Tracked
    var pendingConfIndex: nat
    var msgs: seq<Message>
    var msgsAfterAppend: seq<Message>

    /** Storage was empty at the start, so the tail in memory is, and stays, the whole log. */
    ghost predicate Valid()
      reads this, raftLog, raftLog.storage
    {
      && raftLog.Valid()
      && raftLog.unstable.offset == 1 && raftLog.unstable.offsetInProgress == 1 && raftLog.applying == 0
    }

    ghost function View(): NodeState
      requires Valid()
      reads this, raftLog, raftLog.storage
    {
      NodeState(id, term, vote, state, lead, votes, tracked, raftLog.Log(), raftLog.committed, raftLog.applied,
                pendingConfIndex, preVote, checkQuorum, maxMsgSize, msgs, msgsAfterAppend, false)
    }

    /** newRaft on empty storage. */
    constructor (id: nat, preVote: bool, checkQuorum: bool, maxMsgSize: nat, storage: MemoryStorage)
      requires storage.Valid() && storage.ents == [DUMMY]
      ensures Valid() && fresh(raftLog) && raftLog.storage == storage
      ensures View() == NewNode(id, preVote, checkQuorum, maxMsgSize)
    {
      this.id, this.preVote, this.checkQuorum, this.maxMsgSize := id, preVote, checkQuorum, maxMsgSize;
      term, vote, lead, pendingConfIndex := 0, NONE, NONE, 0;
      votes, tracked := map[], EMPTY;
      msgs, msgsAfterAppend := [], [];
      raftLog := new RaftLog(storage);
      state := StateFollower;
      new;
      var last := raftLog.LastIndex();
      ResetTo(0, last);
      assert View().tracked.trk == map[];
    }

    /** LastIndex and the log's length are the same. */
    method LastIndex() returns (last: nat)
      requires Valid()
      ensures last == |raftLog.Log()|
    {
      TermInExact(raftLog.storage.ents, raftLog.unstable, 0);
      last := raftLog.LastIndex();
    }

    method LastTerm() returns (t: nat)
      requires Valid()
      ensures t == LogSpec.LastTerm(raftLog.Log())
    {
      var last := LastIndex();
      TermInExact(raftLog.storage.ents, raftLog.unstable, last);
      t := raftLog.Term(last).value;
    }

    method Send(m: Message)
      requires Valid() && !RaftSpec.Send(View(), m).fault
      modifies this`msgs, this`msgsAfterAppend
      ensures Valid() && View() == RaftSpec.Send(old(View()), m)
    {
      var m1 := m;
      if m1.from == NONE {
        m1 := m1.(from := id);
      }
      if IsCampaignType(m.mtype) {
        if m1.term == 0 {
          assert false;
        }
      } else {
        if m1.term != 0 {
          assert false;
        }
        if m1.mtype != MsgProp {
          m1 := m1.(term := term);
        }
      }
      if m1.mtype == MsgAppResp || m1.mtype == MsgVoteResp || m1.mtype == MsgPreVoteResp {
        msgsAfterAppend := msgsAfterAppend + [m1];
      } else {
        if m1.to == id {
          assert false;
        }
        msgs := msgs + [m1];
      }
    }

    // -------------------------------------------------------------------
    // Role changes.

    /** The visit of reset: every progress starts over. */
    method ResetTrackers(last: nat)
      modifies this`tracked
      ensures tracked.cfg == old(tracked).cfg
      ensures tracked.trk == map v | v in old(tracked).trk :: ResetProgress(v, id, last, old(tracked).trk[v])
    {
      var ids := VisitOrder(tracked.trk);
      var trk := ResetEach(tracked.trk, ids, last);
      tracked := tracked.(trk := trk);
    }

    method ResetEach(was: map<nat, Progress>, ids: seq<nat>, last: nat) returns (trk: map<nat, Progress>)
      requires Increasing(ids) && Elems(ids) == was.Keys
      ensures trk == map v | v in was :: ResetProgress(v, id, last, was[v])
    {
      trk := was;
      var k := 0;
      ghost var visited: set<nat> := {};
      while k < |ids|
        invariant 0 <= k <= |ids| && trk.Keys == was.Keys && visited == Elems(ids[..k])
        invariant HalfReset(was, trk, visited, id, last)
      {
        NextVisited(ids, k);
        ResetOne(was, trk, visited, id, last, ids[k]);
        var pr := Progress(0, last + 1, StateProbe, 0, false, false, trk[ids[k]].isLearner);
        if ids[k] == id {
          pr := pr.(matched := last);
        }
        trk := trk[ids[k] := pr];
        visited := visited + {ids[k]};
        k := k + 1;
      }
      assert ids[..k] == ids;
    }

    method ResetTo(newTerm: nat, last: nat)
      modifies this
      ensures term == newTerm && vote == (if old(term) != newTerm then NONE else old(vote))
      ensures lead == NONE && votes == map[] && pendingConfIndex == 0
      ensures tracked.cfg == old(tracked).cfg
      ensures tracked.trk == map v | v in old(tracked).trk :: ResetProgress(v, id, last, old(tracked).trk[v])
      ensures state == old(state) && msgs == old(msgs) && msgsAfterAppend == old(msgsAfterAppend)
    {
      if term != newTerm {
        term := newTerm;
        vote := NONE;
      }
      lead := NONE;
      votes := map[];
      ResetTrackers(last);
      pendingConfIndex := 0;
    }

    method Reset(newTerm: nat)
      requires Valid()
      modifies this
      ensures Valid() && View() == RaftSpec.Reset(old(View()), newTerm)
    {
      var last := LastIndex();
      ResetTo(newTerm, last);
    }

    method BecomeFollower(newTerm: nat, newLead: nat)
      requires Valid()
      modifies this
      ensures Valid() && View() == RaftSpec.BecomeFollower(old(View()), newTerm, newLead)
    {
      Reset(newTerm);
      lead := newLead;
      state := StateFollower;
    }

    method BecomeCandidate()
      requires Valid() && state != StateLeader
      modifies this
      ensures Valid() && View() == RaftSpec.BecomeCandidate(old(View()))
    {
      Reset(term + 1);
      vote := id;
      state := StateCandidate;
    }

    method BecomePreCandidate()
      requires Valid() && state != StateLeader
      modifies this
      ensures Valid() && View() == RaftSpec.BecomePreCandidate(old(View()))
    {
      votes := map[];
      lead := NONE;
      state := StatePreCandidate;
    }

    method AppendEntry(es: seq<Entry>)
      requires Valid()
      modifies this`msgs, this`msgsAfterAppend, raftLog
      ensures Valid() && View() == RaftSpec.AppendEntry(old(View()), es)
    {
      var last := LastIndex();
      var stamped := Stamped(es, last);
      var li := Extend(stamped);
      Send(Msg(MsgAppResp, id).(index := li));
    }

    method Extend(stamped: seq<Entry>) returns (li: nat)
      requires Valid() && Contiguous(stamped, |raftLog.Log()| + 1)
      modifies raftLog
      ensures Valid() && View() == old(View()).(log := old(View()).log + stamped)
      ensures li == |View().log|
    {
      ghost var log := raftLog.Log();
      li := raftLog.Append(stamped);
      assert log + [] == log && log[..|log|] == log;
    }

    /** The loop that numbers the entries and gives them the current term. */
    method Stamped(es: seq<Entry>, last: nat) returns (stamped: seq<Entry>)
      ensures stamped == StampEntries(es, term, last)
    {
      stamped := es;
      var i := 0;
      while i < |es|
        invariant 0 <= i <= |es| == |stamped|
        invariant stamped[i..] == es[i..]
        invariant forall k :: 0 <= k < i ==> stamped[k] == es[k].(term := term, index := last + 1 + k)
      {
        stamped := stamped[i := stamped[i].(term := term, index := last + 1 + i)];
        i := i + 1;
      }
    }

    method BecomeLeader()
      requires Valid() && state != StateFollower && id in tracked.trk
      modifies this, raftLog
      ensures Valid() && View() == RaftSpec.BecomeLeader(old(View()))
    {
      Reset(term);
      lead := id;
      state := StateLeader;
      var pr := tracked.trk[id].BecomeReplicate().(recentActive := true);
      tracked := tracked.(trk := tracked.trk[id := pr]);
      var last := LastIndex();
      pendingConfIndex := last;
      AppendEntry([EMPTY_ENTRY]);
    }

    // -------------------------------------------------------------------
    // Sending appends and heartbeats.

    method MaybeSendAppend(to: nat, sendIfEmpty: bool) returns (sent: bool)
      requires Valid() && !RaftSpec.MaybeSendAppend(View(), to, sendIfEmpty).0.fault
      modifies this
      ensures Valid() && (View(), sent) == RaftSpec.MaybeSendAppend(old(View()), to, sendIfEmpty)
    {
      hide RaftSpec.Send;
      var pr := tracked.trk[to];
      var prevTerm := TermBefore(pr.next);
      var ents := EntriesFrom(pr);
      if |ents| == 0 && !sendIfEmpty {
        return false;
      }
      if prevTerm.None? {
        return pr.recentActive;
      }
      SendEntries(to, pr, ents, prevTerm.value);
      return true;
    }

    /** The term of the entry before `next`; an error at either end of the log. */
    method TermBefore(next: nat) returns (t: Option<nat>)
      requires Valid()
      ensures t == if next == 0 then None else LogSpec.TermOf(raftLog.Log(), next - 1)
    {
      if next == 0 {
        return None;
      }
      TermInExact(raftLog.storage.ents, raftLog.unstable, next - 1);
      t := raftLog.Term(next - 1);
    }

    /** The entries to send: none in replicate state. */
    method EntriesFrom(pr: Progress) returns (ents: seq<Entry>)
      requires Valid()
      ensures ents == EntriesFor(View(), pr)
    {
      ents := [];
      if pr.state != StateReplicate && pr.next != 0 {
        var r := raftLog.Entries(pr.next, maxMsgSize);
        ents := r.ents;
      }
    }

    /** Updates the progress and sends the append. */
    method SendEntries(to: nat, pr: Progress, ents: seq<Entry>, prevTerm: nat)
      requires Valid() && to in tracked.trk && pr == tracked.trk[to]
      requires 1 <= pr.next <= |raftLog.Log()| + 1 && LogSpec.TermOf(raftLog.Log(), pr.next - 1) == Some(prevTerm)
      requires pr.UpdateOnEntriesSend(|ents|).Some?
      requires var n := SetProgress(View(), to, pr.UpdateOnEntriesSend(|ents|).value);
               !RaftSpec.Send(n, AppMsg(n, to, pr.next - 1, ents)).fault
      modifies this
      ensures Valid()
      ensures var n := SetProgress(old(View()), to, pr.UpdateOnEntriesSend(|ents|).value);
              View() == RaftSpec.Send(n, AppMsg(n, to, pr.next - 1, ents))
    {
      var p := pr.UpdateOnEntriesSend(|ents|);
      tracked := tracked.(trk := tracked.trk[to := p.value]);
      Send(Msg(MsgApp, to).(index := pr.next - 1, logTerm := prevTerm, entries := ents,
                            commit := raftLog.committed));
    }

    method SendAppend(to: nat)
      requires Valid() && !RaftSpec.SendAppend(View(), to).fault
      modifies this
      ensures Valid() && View() == RaftSpec.SendAppend(old(View()), to)
    {
      var _ := MaybeSendAppend(to, true);
    }

    /** The visit shared by bcastAppend and switchToConfig. */
    method VisitAppend(sendIfEmpty: bool)
      requires Valid() && !AppendToAll(View(), SortedIds(tracked.trk.Keys), sendIfEmpty).fault
      modifies this
      ensures Valid()
      ensures View() == AppendToAll(old(View()), SortedIds(old(tracked).trk.Keys), sendIfEmpty)
    {
      var ids := VisitOrder(tracked.trk);
      ghost var goal := AppendToAll(View(), ids, sendIfEmpty);
      while ids != []
        invariant Valid() && AppendToAll(View(), ids, sendIfEmpty) == goal
        decreases |ids|
      {
        NextAppend(View(), ids, sendIfEmpty);
        AppendToOne(ids[0], sendIfEmpty);
        ids := ids[1..];
      }
    }

    method AppendToOne(to: nat, sendIfEmpty: bool)
      requires Valid() && (to != id ==> !RaftSpec.MaybeSendAppend(View(), to, sendIfEmpty).0.fault)
      modifies this
      ensures Valid()
      ensures View() == if to == id then old(View()) else RaftSpec.MaybeSendAppend(old(View()), to, sendIfEmpty).0
    {
      if to != id {
        var _ := MaybeSendAppend(to, sendIfEmpty);
      }
    }

    method BcastAppend()
      requires Valid() && !RaftSpec.BcastAppend(View()).fault
      modifies this
      ensures Valid() && View() == RaftSpec.BcastAppend(old(View()))
    {
      VisitAppend(true);
    }

    method SendHeartbeat(to: nat)
      requires Valid() && !RaftSpec.SendHeartbeat(View(), to).fault
      modifies this`msgs, this`msgsAfterAppend
      ensures Valid() && View() == RaftSpec.SendHeartbeat(old(View()), to)
    {
      var commit := Min(tracked.trk[to].matched, raftLog.committed);
      Send(Msg(MsgHeartbeat, to).(commit := commit));
    }

    method BcastHeartbeat()
      requires Valid() && !RaftSpec.BcastHeartbeat(View()).fault
      modifies this`msgs, this`msgsAfterAppend
      ensures Valid() && View() == RaftSpec.BcastHeartbeat(old(View()))
    {
      var ids := VisitOrder(tracked.trk);
      ghost var goal := HeartbeatToAll(View(), ids);
      while ids != []
        invariant Valid() && HeartbeatToAll(View(), ids) == goal
        decreases |ids|
      {
        NextHeartbeat(View(), ids);
        HeartbeatToOne(ids[0]);
        ids := ids[1..];
      }
    }

    method HeartbeatToOne(to: nat)
      requires Valid() && (to != id ==> !RaftSpec.SendHeartbeat(View(), to).fault)
      modifies this`msgs, this`msgsAfterAppend
      ensures Valid()
      ensures View() == if to == id then old(View()) else RaftSpec.SendHeartbeat(old(View()), to)
    {
      if to != id {
        SendHeartbeat(to);
      }
    }

    // -------------------------------------------------------------------
    // Elections.

    method Campaign(pre: bool)
      requires Valid() && state != StateLeader && !RaftSpec.Campaign(View(), pre).fault
      modifies this
      ensures Valid() && View() == RaftSpec.Campaign(old(View()), pre)
    {
      CampaignAsks(View(), pre);
      if pre {
        BecomePreCandidate();
        AskVoters(MsgPreVote, term + 1);
      } else {
        BecomeCandidate();
        AskVoters(MsgVote, term);
      }
    }

    method AskVoters(voteMsg: MessageType, campTerm: nat)
      requires Valid() && (voteMsg == MsgVote || voteMsg == MsgPreVote)
      requires !Ask(View(), voteMsg, campTerm).fault
      modifies this`msgs, this`msgsAfterAppend
      ensures Valid() && View() == Ask(old(View()), voteMsg, campTerm)
    {
      var idMap := IDs(tracked.cfg.voters);
      var ids := SortSet(idMap);
      AskForVotes(ids, voteMsg, campTerm);
    }

    method AskForVotes(voters: seq<nat>, voteMsg: MessageType, campTerm: nat)
      requires Valid() && (voteMsg == MsgVote || voteMsg == MsgPreVote)
      requires !RequestVotes(View(), voters, voteMsg, campTerm).fault
      modifies this`msgs, this`msgsAfterAppend
      ensures Valid() && View() == RequestVotes(old(View()), voters, voteMsg, campTerm)
    {
      var ids := voters;
      ghost var goal := RequestVotes(View(), ids, voteMsg, campTerm);
      while ids != []
        invariant Valid() && RequestVotes(View(), ids, voteMsg, campTerm) == goal
        decreases |ids|
      {
        NextRequest(View(), ids, voteMsg, campTerm);
        AskOne(ids[0], voteMsg, campTerm);
        ids := ids[1..];
      }
    }

    method AskOne(to: nat, voteMsg: MessageType, campTerm: nat)
      requires Valid() && (voteMsg == MsgVote || voteMsg == MsgPreVote)
      requires var m := if to == id then Msg(RespType(voteMsg), to).(term := campTerm)
                        else VoteRequest(View(), voteMsg, to, campTerm);
               !RaftSpec.Send(View(), m).fault
      modifies this`msgs, this`msgsAfterAppend
      ensures Valid()
      ensures var m := if to == id then Msg(RespType(voteMsg), to).(term := campTerm)
                       else VoteRequest(old(View()), voteMsg, to, campTerm);
              View() == RaftSpec.Send(old(View()), m)
    {
      if to == id {
        Send(Msg(RespType(voteMsg), to).(term := campTerm));
      } else {
        var last := LastIndex();
        var lastTerm := LastTerm();
        Send(Msg(voteMsg, to).(term := campTerm, index := last, logTerm := lastTerm));
      }
    }

    method Hup(pre: bool)
      requires Valid() && pre == preVote && !RaftSpec.Hup(View()).fault
      modifies this
      ensures Valid() && View() == RaftSpec.Hup(old(View()))
    {
      if state == StateLeader {
        return;
      }
      if !(id in tracked.trk && !tracked.trk[id].isLearner) {
        return;
      }
      Campaign(pre);
    }

    method HandleVoteRequest(m: Message)
      requires Valid() && (m.mtype == MsgVote || m.mtype == MsgPreVote)
      requires !RaftSpec.HandleVoteRequest(View(), m).fault
      modifies this
      ensures Valid() && View() == RaftSpec.HandleVoteRequest(old(View()), m)
    {
      var canVote := vote == m.from || (vote == NONE && lead == NONE) || (m.mtype == MsgPreVote && m.term > term);
      var last := LastIndex();
      var lastTerm := LastTerm();
      if canVote && (m.logTerm > lastTerm || (m.logTerm == lastTerm && m.index >= last)) {
        Send(Msg(RespType(m.mtype), m.from).(term := m.term));
        if m.mtype == MsgVote {
          vote := m.from;
        }
      } else {
        Send(Msg(RespType(m.mtype), m.from).(term := term, reject := true));
      }
    }

    /** Records the vote and counts again. */
    method Poll(from: nat, v: bool) returns (r: VoteResult)
      requires Valid()
      modifies this`votes
      ensures Valid() && View() == RaftSpec.RecordVote(old(View()), from, v)
      ensures r == JointVote(tracked.cfg.voters, votes)
    {
      if from !in votes {
        votes := votes[from := v];
      }
      r := CountJoint(tracked.cfg.voters, votes);
    }

    method HandleVoteResponse(m: Message)
      requires Valid() && (state == StateCandidate || state == StatePreCandidate)
      requires !RaftSpec.HandleVoteResponse(View(), m).fault
      modifies this, raftLog
      ensures Valid() && View() == RaftSpec.HandleVoteResponse(old(View()), m)
    {
      var res := Poll(m.from, !m.reject);
      match res {
        case VoteWon =>
          if state == StatePreCandidate {
            Campaign(false);
          } else {
            WinElection();
          }
        case VoteLost => BecomeFollower(term, NONE);
        case VotePending =>
      }
    }

    method WinElection()
      requires Valid() && state == StateCandidate
      requires !RaftSpec.BcastAppend(RaftSpec.BecomeLeader(View())).fault
      modifies this, raftLog
      ensures Valid() && View() == RaftSpec.BcastAppend(RaftSpec.BecomeLeader(old(View())))
    {
      ghost var won := RaftSpec.BecomeLeader(View());
      AppendToAllAppends(won, SortedIds(won.tracked.trk.Keys), true);
      BecomeLeader();
      BcastAppend();
    }

    // -------------------------------------------------------------------
    // Replication.

    method HandleHeartbeat(m: Message)
      requires Valid() && !RaftSpec.HandleHeartbeat(View(), m).fault
      modifies this`msgs, this`msgsAfterAppend
      ensures Valid() && View() == RaftSpec.HandleHeartbeat(old(View()), m)
    {
      Send(Msg(MsgHeartbeatResp, m.from));
    }

    method HandleAppendEntries(m: Message)
      requires Valid() && !RaftSpec.HandleAppendEntries(View(), m).fault
      modifies this`msgs, this`msgsAfterAppend, raftLog
      ensures Valid() && View() == RaftSpec.HandleAppendEntries(old(View()), m)
    {
      if m.index < raftLog.committed {
        Send(Msg(MsgAppResp, m.from).(index := raftLog.committed));
        return;
      }
      var last, ok := raftLog.MaybeAppend(m.index, m.logTerm, m.commit, m.entries);
      if ok {
        Send(Msg(MsgAppResp, m.from).(index := last));
        return;
      }
      RejectAppend(m);
    }

    method RejectAppend(m: Message)
      requires Valid()
      modifies this`msgs, this`msgsAfterAppend
      ensures Valid()
      ensures var n := old(View());
              var hint := LogSpec.FindConflictByTerm(n.log, if m.index < |n.log| then m.index else |n.log|, m.logTerm);
              View() == RaftSpec.Send(n, Msg(MsgAppResp, m.from).(index := m.index, reject := true,
                                                                   rejectHint := hint.0, logTerm := hint.1))
    {
      var last := LastIndex();
      var hintIndex, hintTerm := raftLog.FindConflictByTerm(Min(m.index, last), m.logTerm);
      Send(Msg(MsgAppResp, m.from).(index := m.index, reject := true, rejectHint := hintIndex, logTerm := hintTerm));
    }

    /** maybeCommit; with the stub answering 0 it never reports progress. */
    method MaybeCommit() returns (moved: bool)
      requires Valid()
      ensures (View(), moved) == RaftSpec.MaybeCommit(View())
    {
      var mci := CommittedIndex(tracked);
      TermInExact(raftLog.storage.ents, raftLog.unstable, mci);
      var t := raftLog.Term(mci);
      if mci > raftLog.committed && term != 0 && t == Some(term) {
        assert false;
      }
      return false;
    }

    method HandleAppendResponse(m: Message)
      requires Valid() && m.from in tracked.trk
      requires !RaftSpec.HandleAppendResponse(View(), m).fault
      modifies this
      ensures Valid() && View() == RaftSpec.HandleAppendResponse(old(View()), m)
    {
      var pr := tracked.trk[m.from].(recentActive := true);
      if m.reject {
        tracked := tracked.(trk := tracked.trk[m.from := pr]);
        return;
      }
      AckCases(View(), m);
      RecordAck(m.from, m.index, pr);
    }

    method RecordAck(from: nat, index: nat, pr: Progress)
      requires Valid() && from in tracked.trk && pr == tracked.trk[from].(recentActive := true)
      requires !AckResult(View(), from, index, pr).fault
      modifies this
      ensures Valid() && View() == AckResult(old(View()), from, index, pr)
    {
      var oldPaused := pr.IsPaused();
      var (p, updated) := pr.MaybeUpdate(index);
      if updated || (p.matched == index && p.state == StateProbe) {
        tracked := tracked.(trk := tracked.trk[from := Unblocked(p)]);
        var moved := MaybeCommit();
        FollowUp(from, oldPaused);
      } else {
        tracked := tracked.(trk := tracked.trk[from := p]);
      }
    }

    /** What is sent to a peer that has just been moved to replicate state. */
    method FollowUp(to: nat, oldPaused: bool)
      requires Valid() && to in tracked.trk && tracked.trk[to].state == StateReplicate
      requires !SentAfter(View(), to, oldPaused).fault
      modifies this
      ensures Valid() && View() == SentAfter(old(View()), to, oldPaused)
    {
      if oldPaused {
        StaysReplicating(View(), to);
        SendAppend(to);
      }
      if id != to {
        SendRemaining(to);
      }
    }

    /** Sends until nothing is left to send: in replicate state that is at once. */
    method SendRemaining(to: nat)
      requires Valid() && to in tracked.trk && tracked.trk[to].state == StateReplicate
      modifies this
      ensures Valid() && View() == old(View())
      ensures View() == RaftSpec.MaybeSendAppend(old(View()), to, false).0
    {
      var sent := true;
      while sent
        invariant Valid() && View() == old(View())
        decreases sent
      {
        sent := MaybeSendAppend(to, false);
      }
    }

    method HandleProposal(m: Message)
      requires Valid() && !RaftSpec.HandleProposal(View(), m).fault
      modifies this, raftLog
      ensures Valid() && View() == RaftSpec.HandleProposal(old(View()), m)
    {
      if |m.entries| == 0 {
        assert false;
      }
      if id !in tracked.trk {
        return;
      }
      var last := LastIndex();
      var es := ScreenEntries(m.entries, last);
      ghost var next := RaftSpec.AppendEntry(View(), es);
      AppendToAllAppends(next, SortedIds(next.tracked.trk.Keys), true);
      AppendEntry(es);
      BcastAppend();
    }

    /** The loop over the proposed entries; a refused change is replaced where it stands. */
    method ScreenEntries(proposed: seq<Entry>, last: nat) returns (es: seq<Entry>)
      requires Valid() && last == |raftLog.Log()| && AllDecode(proposed)
      modifies this`pendingConfIndex
      ensures Valid()
      ensures (es, pendingConfIndex) == Screen(proposed, old(pendingConfIndex), raftLog.applied, last, Joint(tracked.cfg))
      ensures View() == old(View()).(pendingConfIndex := pendingConfIndex)
    {
      es := proposed;
      var i := 0;
      ghost var goal := Screen(proposed, pendingConfIndex, raftLog.applied, last, Joint(tracked.cfg));
      while i < |proposed|
        invariant 0 <= i <= |proposed| == |es|
        invariant HalfScreened(proposed, es, i, pendingConfIndex, raftLog.applied, last, Joint(tracked.cfg), goal)
      {
        ghost var old_ := pendingConfIndex;
        var head := ScreenEntry(es[i], last + i + 1);
        HalfScreenedNext(proposed, es, i, old_, raftLog.applied, last, Joint(tracked.cfg), goal, head, pendingConfIndex);
        es := es[i := head];
        i := i + 1;
      }
      assert es[..i] + [] == es;
    }

    /** One proposed entry, to be appended at `index`. */
    method ScreenEntry(e: Entry, index: nat) returns (head: Entry)
      requires Valid() && Decodes(e)
      modifies this`pendingConfIndex
      ensures var refuse := IsConfChange(e) && Refused(e, old(pendingConfIndex), raftLog.applied, Joint(tracked.cfg));
              && head == (if refuse then EMPTY_ENTRY else e)
              && pendingConfIndex == (if IsConfChange(e) && !refuse then index else old(pendingConfIndex))
    {
      head := e;
      if IsConfChange(e) {
        var alreadyPending := pendingConfIndex > raftLog.applied;
        var alreadyJoint := tracked.cfg.voters.outgoing != {};
        var changes := ConfProposal.UnmarshalChanges(e);
        var wantsLeaveJoint := changes == 0;
        if alreadyPending || (alreadyJoint && !wantsLeaveJoint) || (!alreadyJoint && wantsLeaveJoint) {
          head := EMPTY_ENTRY;
        } else {
          pendingConfIndex := index;
        }
      }
    }

    // -------------------------------------------------------------------
    // Dispatch.

    method StepLeader(m: Message)
      requires Valid() && !RaftSpec.StepLeader(View(), m).fault
      modifies this, raftLog
      ensures Valid() && View() == RaftSpec.StepLeader(old(View()), m)
    {
      match m.mtype {
        case MsgBeat => BcastHeartbeat();
        case MsgProp => HandleProposal(m);
        case MsgAppResp =>
          if m.from in tracked.trk {
            HandleAppendResponse(m);
          }
        case _ =>
      }
    }

    method StepCandidate(m: Message)
      requires Valid() && (state == StateCandidate || state == StatePreCandidate)
      requires !RaftSpec.StepCandidate(View(), m).fault
      modifies this, raftLog
      ensures Valid() && View() == RaftSpec.StepCandidate(old(View()), m)
    {
      var myVoteRespType := if state == StatePreCandidate then MsgPreVoteResp else MsgVoteResp;
      if m.mtype == MsgApp || m.mtype == MsgSnap {
        BecomeFollower(m.term, m.from);
      } else if m.mtype == MsgHeartbeat {
        BecomeFollower(m.term, m.from);
        HandleHeartbeat(m);
      } else if m.mtype == myVoteRespType {
        HandleVoteResponse(m);
      }
    }

    method StepFollower(m: Message)
      requires Valid() && !RaftSpec.StepFollower(View(), m).fault
      modifies this, raftLog
      ensures Valid() && View() == RaftSpec.StepFollower(old(View()), m)
    {
      match m.mtype {
        case MsgProp =>
          if lead != NONE {
            Send(m.(to := lead));
          }
        case MsgApp =>
          lead := m.from;
          HandleAppendEntries(m);
        case MsgHeartbeat =>
          lead := m.from;
          HandleHeartbeat(m);
        case _ =>
      }
    }

    method Dispatch(m: Message)
      requires Valid() && !RaftSpec.Dispatch(View(), m).fault
      modifies this, raftLog
      ensures Valid() && View() == RaftSpec.Dispatch(old(View()), m)
    {
      hide RaftSpec.Hup, RaftSpec.HandleVoteRequest, RaftSpec.StepLeader, RaftSpec.StepFollower, RaftSpec.StepCandidate;
      match m.mtype {
        case MsgHup => Hup(preVote);
        case MsgVote => HandleVoteRequest(m);
        case MsgPreVote => HandleVoteRequest(m);
        case _ =>
          match state {
            case StateLeader => StepLeader(m);
            case StateFollower => StepFollower(m);
            case _ => StepCandidate(m);
          }
      }
    }

    /** Every message changes the object exactly as the node function says. */
    method Step(m: Message)
      requires Valid() && !RaftSpec.Step(View(), m).fault
      modifies this, raftLog
      ensures Valid() && View() == RaftSpec.Step(old(View()), m)
    {
      if m.term != 0 && m.term > term {
        if m.mtype == MsgPreVote {
          // never change the term in response to a pre-vote
        } else if m.mtype == MsgPreVoteResp && !m.reject {
          // the term is that of the election to come
        } else if m.mtype == MsgApp || m.mtype == MsgHeartbeat || m.mtype == MsgSnap {
          BecomeFollower(m.term, m.from);
        } else {
          BecomeFollower(m.term, NONE);
        }
      } else if m.term != 0 && m.term < term {
        if (checkQuorum || preVote) && (m.mtype == MsgHeartbeat || m.mtype == MsgApp) {
          Send(Msg(MsgAppResp, m.from));
        } else if m.mtype == MsgPreVote {
          Send(Msg(MsgPreVoteResp, m.from).(term := term, reject := true));
        }
        return;
      }
      Dispatch(m);
    }

    // -------------------------------------------------------------------
    // Configuration changes and the initial state.

    method ApplyConfChange(ccs: seq<ConfChangeSingle>)
      requires Valid() && !RaftSpec.ApplyConfChange(View(), ccs).fault
      modifies this
      ensures Valid() && View() == RaftSpec.ApplyConfChange(old(View()), ccs)
    {
      var last := LastIndex();
      var t := RunSimple(tracked, last, ccs);
      if t.None? {
        assert false;
      } else {
        SwitchToConfig(t.value);
      }
    }

    method SwitchToConfig(t: Tracked)
      requires Valid() && !RaftSpec.SwitchToConfig(View(), t).fault
      modifies this
      ensures Valid() && View() == RaftSpec.SwitchToConfig(old(View()), t)
    {
      tracked := t;
      var isLearner := id in t.trk && t.trk[id].isLearner;
      if (id !in t.trk || isLearner) && state == StateLeader {
        return;
      }
      if state != StateLeader || t.cfg.voters.incoming == {} {
        return;
      }
      var moved := MaybeCommit();
      VisitAppend(false);
    }

    /** RawNode.Bootstrap; false is the error about storage that is not empty, or about no peers. */
    method Bootstrap(peers: seq<nat>, payload: nat -> seq<byte>) returns (ok: bool)
      requires Valid() && raftLog.Log() == [] && raftLog.committed == 0
      requires !RaftSpec.Bootstrap(View(), peers, payload).fault
      modifies this, raftLog
      ensures Valid() && ok == (peers != [] && raftLog.storage.LastIndex() == 0)
      ensures View() == if ok then RaftSpec.Bootstrap(old(View()), peers, payload) else old(View())
    {
      if |peers| == 0 || raftLog.storage.LastIndex() != 0 {
        return false;
      }
      BecomeFollower(1, NONE);
      var ents := [];
      var i := 0;
      while i < |peers|
        invariant 0 <= i <= |peers| && ents == BootEntries(peers, payload)[..i]
      {
        ents := ents + [Entry(1, i + 1, EntryConfChange, Some(payload(peers[i])))];
        i := i + 1;
      }
      var last := raftLog.Append(ents);
      raftLog.CommitTo(|ents|);
      assert raftLog.Log() == BootEntries(peers, payload);
      AddAllPeers(peers);
      return true;
    }

    method AddAllPeers(peers: seq<nat>)
      requires Valid() && !RaftSpec.AddPeers(View(), peers).fault
      modifies this
      ensures Valid() && View() == AddPeers(old(View()), peers)
    {
      var todo := peers;
      ghost var goal := AddPeers(View(), todo);
      while todo != []
        invariant Valid() && AddPeers(View(), todo) == goal
        decreases |todo|
      {
        AddPeersAppends(RaftSpec.ApplyConfChange(View(), [ConfChangeSingle(ADD_NODE, todo[0])]), todo[1..]);
        ApplyConfChange([ConfChangeSingle(ADD_NODE, todo[0])]);
        todo := todo[1..];
      }
    }
  }
}
