/** What becomes of a proposal: which entries enter the leader's log, and with what in them. */
module Proposals {
  import opened RaftTypes
  import opened LogSpec
  import opened Quorum
  import opened Tracker
  import opened ConfChange
  import opened ConfEntry
  import opened RaftSpec
  import opened Reactions
  import opened Exchanges

  /** A configuration change that fits the present configuration: in a joint one only the empty change does. */
  ghost predicate Wanted(e: Entry, joint: bool) {
    IsConfChange(e) && (joint <==> DecodedChanges(e) == Some([]))
  }

  /** A normal entry stays as it is; of the changes only the first wanted one, and none while another is pending. */
  ghost predicate Stays(es: seq<Entry>, free: bool, joint: bool, k: nat)
    requires k < |es|
  {
    !IsConfChange(es[k])
    || (free && Wanted(es[k], joint) && forall j :: 0 <= j < k ==> !Wanted(es[j], joint))
  }

  /** The entries as they enter the log behind index `last`. */
  ghost predicate Landed(es: seq<Entry>, free: bool, joint: bool, term: nat, last: nat, r: seq<Entry>) {
    && |r| == |es|
    && forall k {:trigger r[k]} {:trigger es[k]} :: 0 <= k < |es| ==>
         r[k] == if Stays(es, free, joint, k) then Entry(term, last + 1 + k, es[k].etype, es[k].data)
                 else Entry(term, last + 1 + k, EntryNormal, None)
  }

  /** The index of the change that stays, if one does. */
  ghost predicate PendingIs(es: seq<Entry>, free: bool, joint: bool, last: nat, before: nat, after: nat) {
    && (forall k :: 0 <= k < |es| && IsConfChange(es[k]) && Stays(es, free, joint, k) ==> after == last + 1 + k)
    && ((forall k :: 0 <= k < |es| && IsConfChange(es[k]) ==> !Stays(es, free, joint, k)) ==> after == before)
  }

  ghost predicate Screened(es: seq<Entry>, free: bool, joint: bool, r: seq<Entry>) {
    && |r| == |es|
    && forall k {:trigger r[k]} {:trigger es[k]} :: 0 <= k < |es| ==>
         r[k] == if Stays(es, free, joint, k) then es[k] else EMPTY_ENTRY
  }

  /** Behind the first wanted change nothing is free any more. */
  lemma StaysInTail(es: seq<Entry>, free: bool, joint: bool, k: nat)
    requires 0 < k < |es|
    ensures Stays(es, free, joint, k) <==> Stays(es[1..], free && !Wanted(es[0], joint), joint, k - 1)
  {
    if forall j :: 0 <= j < k ==> !Wanted(es[j], joint) {
      forall j | 0 <= j < k - 1 ensures !Wanted(es[1..][j], joint) {
        assert es[1..][j] == es[j + 1];
      }
    } else {
      var j :| 0 <= j < k && Wanted(es[j], joint);
      assert j > 0 ==> Wanted(es[1..][j - 1], joint);
    }
  }

  lemma {:induction false} ScreenIs(es: seq<Entry>, pending: nat, applied: nat, last: nat, joint: bool)
    requires AllDecode(es) && applied <= last
    ensures var r := Screen(es, pending, applied, last, joint);
            Screened(es, pending <= applied, joint, r.0) && PendingIs(es, pending <= applied, joint, last, pending, r.1)
  {
    if es != [] {
      var free := pending <= applied;
      var refuse := IsConfChange(es[0]) && Refused(es[0], pending, applied, joint);
      var pending' := if IsConfChange(es[0]) && !refuse then last + 1 else pending;
      assert Decodes(es[0]) && Changes(es[0]) == |DecodedChanges(es[0]).value|;
      assert refuse <==> IsConfChange(es[0]) && !(free && Wanted(es[0], joint));
      var rest := Screen(es[1..], pending', applied, last + 1, joint);
      ScreenIs(es[1..], pending', applied, last + 1, joint);
      ScreenedCons(es, free, joint, rest.0);
      PendingCons(es, free, joint, last, pending, rest.1);
    }
  }

  lemma ScreenedCons(es: seq<Entry>, free: bool, joint: bool, rest: seq<Entry>)
    requires es != [] && Screened(es[1..], free && !Wanted(es[0], joint), joint, rest)
    ensures Screened(es, free, joint,
                     [if IsConfChange(es[0]) && !(free && Wanted(es[0], joint)) then EMPTY_ENTRY else es[0]] + rest)
  {
    forall k | 0 < k < |es| ensures rest[k - 1] == if Stays(es, free, joint, k) then es[k] else EMPTY_ENTRY {
      StaysInTail(es, free, joint, k);
      assert es[1..][k - 1] == es[k];
    }
  }

  lemma PendingCons(es: seq<Entry>, free: bool, joint: bool, last: nat, pending: nat, after: nat)
    requires es != []
    requires PendingIs(es[1..], free && !Wanted(es[0], joint), joint, last + 1,
                       if free && Wanted(es[0], joint) then last + 1 else pending, after)
    ensures PendingIs(es, free, joint, last, pending, after)
  {
    var tail, free1 := es[1..], free && !Wanted(es[0], joint);
    forall k | 0 <= k < |es| && IsConfChange(es[k]) && Stays(es, free, joint, k) ensures after == last + 1 + k {
      if k > 0 {
        StaysInTail(es, free, joint, k);
        assert tail[k - 1] == es[k];
      } else {
        assert forall j :: 0 <= j < |tail| && IsConfChange(tail[j]) ==> !Stays(tail, free1, joint, j);
      }
    }
    if forall k :: 0 <= k < |es| && IsConfChange(es[k]) ==> !Stays(es, free, joint, k) {
      assert !(free && Wanted(es[0], joint));
      forall j | 0 <= j < |tail| && IsConfChange(tail[j]) ensures !Stays(tail, free1, joint, j) {
        StaysInTail(es, free, joint, j + 1);
        assert tail[j] == es[j + 1];
      }
    }
  }

  /** The leader with the entries behind its log, acknowledged to itself. */
  ghost function Extended(n: NodeState, es: seq<Entry>, pending: nat): NodeState {
    n.(log := n.log + es, pendingConfIndex := pending,
       msgsAfterAppend := n.msgsAfterAppend
                          + [Message(MsgAppResp, n.id, n.id, n.term, 0, |n.log| + |es|, [], 0, false, 0)])
  }

  /**
   * A proposal enters the log whole: one entry for each proposed, of the leader's term and the next index, with the
   * type and the data that were proposed; only a refused configuration change leaves an empty entry in its place.
   */
  lemma ProposalIsAppended(n: NodeState, m: Message) returns (es: seq<Entry>, pending: nat, out: seq<Message>)
    requires n.role == StateLeader && m.mtype == MsgProp && (m.term == 0 || m.term == n.term)
    requires Proposable(m.entries) && n.id in n.tracked.trk && n.committed <= |n.log| && n.applied <= |n.log|
    requires PeersInReach(n)
    ensures var (free, joint) := (n.pendingConfIndex <= n.applied, n.tracked.cfg.voters.outgoing != {});
            && Landed(m.entries, free, joint, n.term, |n.log|, es)
            && PendingIs(m.entries, free, joint, |n.log|, n.pendingConfIndex, pending)
    ensures Step(n, m) == Sent(Extended(n, es, pending), n.tracked.trk.Keys - {n.id}, out)
    ensures OnePer(out, n.tracked.trk.Keys - {n.id}, x => AppendTo(Extended(n, es, pending), x))
  {
    hide OnePer, AppendTo, Sent, Screened, PendingIs, Landed, AppendToAll, AllDecode, Screen, PeersInReach, Step, AppendEntry, SortedIds;
    var joint := n.tracked.cfg.voters.outgoing != {};
    var screened := Screen(m.entries, n.pendingConfIndex, n.applied, |n.log|, joint);
    ScreenIs(m.entries, n.pendingConfIndex, n.applied, |n.log|, joint);
    pending := screened.1;
    es := StampedLands(m.entries, n.pendingConfIndex <= n.applied, joint, n, screened.0);
    var a := Extended(n, es, pending);
    StillInReach(n, es, pending);
    out := BroadcastGoesOut(a);
    ProposalIsHandled(n, m, screened.0, pending, es);
  }

  lemma StillInReach(n: NodeState, es: seq<Entry>, pending: nat)
    requires PeersInReach(n)
    ensures PeersInReach(Extended(n, es, pending))
  {
    assert forall v :: InReach(n, v) ==> InReach(Extended(n, es, pending), v);
  }

  lemma StampedLands(es: seq<Entry>, free: bool, joint: bool, n: NodeState, s: seq<Entry>) returns (r: seq<Entry>)
    requires Screened(es, free, joint, s) && es != [] && n.committed <= |n.log|
    ensures Landed(es, free, joint, n.term, |n.log|, r)
    ensures forall p :: AppendEntry(n.(pendingConfIndex := p), s) == Extended(n, r, p)
  {
    hide Stays;
    r := StampEntries(s, n.term, |n.log|);
    forall k | 0 <= k < |es|
      ensures r[k] == if Stays(es, free, joint, k) then Entry(n.term, |n.log| + 1 + k, es[k].etype, es[k].data)
                      else Entry(n.term, |n.log| + 1 + k, EntryNormal, None)
    {
      assert s[k] == if Stays(es, free, joint, k) then es[k] else EMPTY_ENTRY;
    }
    forall p ensures AppendEntry(n.(pendingConfIndex := p), s) == Extended(n, r, p) {
      StampedIsAppended(n.(pendingConfIndex := p), s);
    }
  }

  lemma StampedIsAppended(n: NodeState, s: seq<Entry>)
    requires s != [] && n.committed <= |n.log|
    ensures AppendEntry(n, s) == Extended(n, StampEntries(s, n.term, |n.log|), n.pendingConfIndex)
  {
    hide StampEntries;
    assert |StampEntries(s, n.term, |n.log|)| == |s| by { StampedLength(s, n.term, |n.log|); }
  }

  lemma StampedLength(s: seq<Entry>, term: nat, last: nat)
    ensures |StampEntries(s, term, last)| == |s|
  {
  }

  lemma ProposalIsHandled(n: NodeState, m: Message, s: seq<Entry>, pending: nat, es: seq<Entry>)
    requires n.role == StateLeader && m.mtype == MsgProp && (m.term == 0 || m.term == n.term)
    requires Proposable(m.entries) && n.id in n.tracked.trk
    requires Screen(m.entries, n.pendingConfIndex, n.applied, |n.log|, n.tracked.cfg.voters.outgoing != {}) == (s, pending)
    requires AppendEntry(n.(pendingConfIndex := pending), s) == Extended(n, es, pending)
    ensures Step(n, m) == AppendToAll(Extended(n, es, pending), SortedIds(n.tracked.trk.Keys), true)
  {
    hide AllDecode, Screen, AppendEntry, AppendToAll, Hup, HandleVoteRequest, HandleAppendResponse, BcastHeartbeat, SortedIds;
  }
}
