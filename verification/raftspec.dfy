/** One node's reaction to every message, as functions on its state. */
module RaftSpec {
  import opened RaftTypes
  import opened LogSpec
  import opened Quorum
  import opened Tracker
  import opened ConfChange
  import opened ConfEntry

  const NONE: nat := 0

  datatype Role = StateFollower | StateCandidate | StateLeader | StatePreCandidate

  /** `fault` records that the source would have panicked. */
  datatype NodeState = NodeState(
    id: nat, term: nat, vote: nat, role: Role, lead: nat, votes: map<nat, bool>,
    tracked: Tracked, log: seq<Entry>, committed: nat, applied: nat, pendingConfIndex: nat,
    preVote: bool, checkQuorum: bool, maxMsgSize: nat,
    msgs: seq<Message>, msgsAfterAppend: seq<Message>, fault: bool)

  function Fault(n: NodeState): NodeState { n.(fault := true) }

  function SetProgress(n: NodeState, id: nat, p: Progress): NodeState {
    n.(tracked := n.tracked.(trk := n.tracked.trk[id := p]))
  }

  predicate IsCampaignType(t: MessageType) {
    t == MsgVote || t == MsgVoteResp || t == MsgPreVote || t == MsgPreVoteResp
  }

  predicate WaitsForAppend(t: MessageType) {
    t == MsgAppResp || t == MsgVoteResp || t == MsgPreVoteResp
  }

  /** Sender and term filled in as send does it. */
  function Stamp(n: NodeState, m: Message): Message {
    var m1 := if m.from == NONE then m.(from := n.id) else m;
    if IsCampaignType(m.mtype) || m.mtype == MsgProp then m1 else m1.(term := n.term)
  }

  function Send(n: NodeState, m: Message): NodeState {
    if IsCampaignType(m.mtype) == (m.term == 0) then Fault(n)
    else if WaitsForAppend(m.mtype) then n.(msgsAfterAppend := n.msgsAfterAppend + [Stamp(n, m)])
    else if m.to == n.id then Fault(n)
    else n.(msgs := n.msgs + [Stamp(n, m)])
  }

  function ResetProgress(id: nat, self: nat, last: nat, p: Progress): Progress {
    Progress(if id == self then last else 0, last + 1, StateProbe, 0, false, false, p.isLearner)
  }

  function Reset(n: NodeState, term: nat): NodeState {
    var trk := n.tracked.trk;
    n.(term := term, vote := if n.term != term then NONE else n.vote, lead := NONE, votes := map[],
       tracked := n.tracked.(trk := map id | id in trk :: ResetProgress(id, n.id, |n.log|, trk[id])),
       pendingConfIndex := 0)
  }

  function BecomeFollower(n: NodeState, term: nat, lead: nat): NodeState {
    Reset(n, term).(lead := lead, role := StateFollower)
  }

  function BecomeCandidate(n: NodeState): NodeState {
    if n.role == StateLeader then Fault(n)
    else Reset(n, n.term + 1).(vote := n.id, role := StateCandidate)
  }

  function BecomePreCandidate(n: NodeState): NodeState {
    if n.role == StateLeader then Fault(n)
    else n.(votes := map[], lead := NONE, role := StatePreCandidate)
  }

  function StampEntries(es: seq<Entry>, term: nat, last: nat): seq<Entry> {
    seq(|es|, i requires 0 <= i < |es| => es[i].(term := term, index := last + 1 + i))
  }

  /** appendEntry: extend the own log and queue the acknowledgement to oneself. */
  function AppendEntry(n: NodeState, es: seq<Entry>): NodeState {
    var n1 := if es == [] then n
              else if |n.log| < n.committed then Fault(n)
              else n.(log := n.log + StampEntries(es, n.term, |n.log|));
    Send(n1, Msg(MsgAppResp, n.id).(index := |n1.log|))
  }

  const EMPTY_ENTRY := Entry(0, 0, EntryNormal, None)

  function BecomeLeader(n: NodeState): NodeState {
    if n.role == StateFollower || n.id !in n.tracked.trk then Fault(n)
    else
      var n1 := Reset(n, n.term).(lead := n.id, role := StateLeader);
      var pr := n1.tracked.trk[n.id].BecomeReplicate().(recentActive := true);
      AppendEntry(SetProgress(n1, n.id, pr).(pendingConfIndex := |n.log|), [EMPTY_ENTRY])
  }

  /** The entries of an append to a peer: none in replicate state, else a size-limited run. */
  function EntriesFor(n: NodeState, pr: Progress): seq<Entry> {
    if pr.state == StateReplicate || pr.next == 0 || pr.next > |n.log| then []
    else LimitSize(n.log[pr.next - 1..], n.maxMsgSize)
  }

  function AppMsg(n: NodeState, to: nat, prev: nat, ents: seq<Entry>): Message
    requires prev <= |n.log|
  {
    Msg(MsgApp, to).(index := prev, logTerm := TermOf(n.log, prev).value, entries := ents,
                     commit := n.committed)
  }

  /** maybeSendAppend; the flag says whether it reports a message as sent. */
  function MaybeSendAppend(n: NodeState, to: nat, sendIfEmpty: bool): (NodeState, bool) {
    if to !in n.tracked.trk then (Fault(n), false)
    else
      var pr := n.tracked.trk[to];
      var ents := EntriesFor(n, pr);
      if ents == [] && !sendIfEmpty then (n, false)
      else if pr.next == 0 || pr.next - 1 > |n.log| then (n, pr.recentActive)
      else
        var p := pr.UpdateOnEntriesSend(|ents|);
        if p.None? then (Fault(n), false)
        else (Send(SetProgress(n, to, p.value), AppMsg(n, to, pr.next - 1, ents)), true)
  }

  function SendAppend(n: NodeState, to: nat): NodeState { MaybeSendAppend(n, to, true).0 }

  function AppendToAll(n: NodeState, ids: seq<nat>, sendIfEmpty: bool): NodeState
    decreases |ids|
  {
    if ids == [] then n
    else
      AppendToAll(if ids[0] == n.id then n else MaybeSendAppend(n, ids[0], sendIfEmpty).0,
                  ids[1..], sendIfEmpty)
  }

  ghost function BcastAppend(n: NodeState): NodeState {
    AppendToAll(n, SortedIds(n.tracked.trk.Keys), true)
  }

  function SendHeartbeat(n: NodeState, to: nat): NodeState {
    if to !in n.tracked.trk then Fault(n)
    else
      var matched := n.tracked.trk[to].matched;
      Send(n, Msg(MsgHeartbeat, to).(commit := if matched < n.committed then matched else n.committed))
  }

  function HeartbeatToAll(n: NodeState, ids: seq<nat>): NodeState
    decreases |ids|
  {
    if ids == [] then n
    else HeartbeatToAll(if ids[0] == n.id then n else SendHeartbeat(n, ids[0]), ids[1..])
  }

  ghost function BcastHeartbeat(n: NodeState): NodeState {
    HeartbeatToAll(n, SortedIds(n.tracked.trk.Keys))
  }

  // ---------------------------------------------------------------------
  // Elections.

  predicate Promotable(n: NodeState) {
    n.id in n.tracked.trk && !n.tracked.trk[n.id].isLearner
  }

  function RespType(t: MessageType): MessageType
    requires t == MsgVote || t == MsgPreVote
  {
    if t == MsgVote then MsgVoteResp else MsgPreVoteResp
  }

  function VoteRequest(n: NodeState, t: MessageType, to: nat, term: nat): Message {
    Msg(t, to).(term := term, index := |n.log|, logTerm := LastTerm(n.log))
  }

  function RequestVotes(n: NodeState, ids: seq<nat>, t: MessageType, term: nat): NodeState
    requires t == MsgVote || t == MsgPreVote
    decreases |ids|
  {
    if ids == [] then n
    else
      var n1 := if ids[0] == n.id then Send(n, Msg(RespType(t), ids[0]).(term := term))
                else Send(n, VoteRequest(n, t, ids[0], term));
      RequestVotes(n1, ids[1..], t, term)
  }

  ghost function Campaign(n: NodeState, pre: bool): NodeState {
    var n1 := if pre then BecomePreCandidate(n) else BecomeCandidate(n);
    var ids := SortedIds(n.tracked.cfg.voters.incoming + n.tracked.cfg.voters.outgoing);
    if pre then RequestVotes(n1, ids, MsgPreVote, n1.term + 1)
    else RequestVotes(n1, ids, MsgVote, n1.term)
  }

  ghost function Hup(n: NodeState): NodeState {
    if n.role == StateLeader || !Promotable(n) then n else Campaign(n, n.preVote)
  }

  predicate CanVote(n: NodeState, m: Message) {
    || n.vote == m.from
    || (n.vote == NONE && n.lead == NONE)
    || (m.mtype == MsgPreVote && m.term > n.term)
  }

  function HandleVoteRequest(n: NodeState, m: Message): NodeState
    requires m.mtype == MsgVote || m.mtype == MsgPreVote
  {
    var t := RespType(m.mtype);
    if CanVote(n, m) && UpToDate(n.log, m.index, m.logTerm) then
      var n1 := Send(n, Msg(t, m.from).(term := m.term));
      if m.mtype == MsgVote then n1.(vote := m.from) else n1
    else Send(n, Msg(t, m.from).(term := n.term, reject := true))
  }

  function RecordVote(n: NodeState, id: nat, v: bool): NodeState {
    n.(votes := Record(n.votes, id, v))
  }

  ghost function HandleVoteResponse(n: NodeState, m: Message): NodeState {
    var n1 := RecordVote(n, m.from, !m.reject);
    match JointVote(n1.tracked.cfg.voters, n1.votes)
    case VoteWon =>
      if n1.role == StatePreCandidate then Campaign(n1, false) else BcastAppend(BecomeLeader(n1))
    case VoteLost => BecomeFollower(n1, n1.term, NONE)
    case VotePending => n1
  }

  // ---------------------------------------------------------------------
  // Replication.

  function HandleHeartbeat(n: NodeState, m: Message): NodeState {
    Send(n, Msg(MsgHeartbeatResp, m.from))
  }

  ghost function HandleAppendEntries(n: NodeState, m: Message): NodeState {
    if m.index < n.committed then Send(n, Msg(MsgAppResp, m.from).(index := n.committed))
    else if !Contiguous(m.entries, m.index + 1) then Fault(n)
    else
      match MaybeAppend(n.log, n.committed, m.index, m.logTerm, m.commit, m.entries)
      case Panics => Fault(n)
      case Appended(log, committed, last) =>
        Send(n.(log := log, committed := committed), Msg(MsgAppResp, m.from).(index := last))
      case Mismatch =>
        var at := if m.index < |n.log| then m.index else |n.log|;
        var hint := FindConflictByTerm(n.log, at, m.logTerm);
        Send(n, Msg(MsgAppResp, m.from).(index := m.index, reject := true,
                                         rejectHint := hint.0, logTerm := hint.1))
  }

  /** ProgressTracker.Committed is a stub that answers 0. */
  function CommittedIndex(t: Tracked): nat { 0 }

  function MaybeCommit(n: NodeState): (NodeState, bool) {
    var mci := CommittedIndex(n.tracked);
    if mci > n.committed && n.term != 0 && TermOf(n.log, mci) == Some(n.term)
    then (n.(committed := mci), true)
    else (n, false)
  }

  /** The progress after a positive acknowledgement that moved or unblocked the peer. */
  function Unblocked(p: Progress): Progress {
    match p.state
    case StateProbe => p.BecomeReplicate()
    case StateSnapshot => p.BecomeProbe().BecomeReplicate()
    case StateReplicate => p
  }

  ghost function HandleAppendResponse(n: NodeState, m: Message): NodeState
    requires m.from in n.tracked.trk
  {
    var pr := n.tracked.trk[m.from].(recentActive := true);
    if m.reject then SetProgress(n, m.from, pr)
    else
      var (p, updated) := pr.MaybeUpdate(m.index);
      if updated || (p.matched == m.index && p.state == StateProbe) then
        var (n1, moved) := MaybeCommit(SetProgress(n, m.from, Unblocked(p)));
        var n2 := if moved then BcastAppend(n1)
                  else if pr.IsPaused() then SendAppend(n1, m.from) else n1;
        if n.id != m.from then MaybeSendAppend(n2, m.from, false).0 else n2
      else SetProgress(n, m.from, p)
  }

  /** Whether a proposed change must be replaced by an empty entry. */
  predicate Refused(e: Entry, pending: nat, applied: nat, joint: bool) {
    || pending > applied
    || (joint && Changes(e) != 0)
    || (!joint && Changes(e) == 0)
  }

  /** The proposal loop: at most one configuration change stays, the rest become empty. */
  function Screen(es: seq<Entry>, pending: nat, applied: nat, last: nat, joint: bool): (seq<Entry>, nat)
  {
    if es == [] then ([], pending)
    else
      var refuse := IsConfChange(es[0]) && Refused(es[0], pending, applied, joint);
      var head := if refuse then EMPTY_ENTRY else es[0];
      var pending' := if IsConfChange(es[0]) && !refuse then last + 1 else pending;
      var rest := Screen(es[1..], pending', applied, last + 1, joint);
      ([head] + rest.0, rest.1)
  }

  ghost function HandleProposal(n: NodeState, m: Message): NodeState {
    if m.entries == [] then Fault(n)
    else if n.id !in n.tracked.trk then n
    else if !AllDecode(m.entries) then Fault(n)
    else
      var (es, pending) := Screen(m.entries, n.pendingConfIndex, n.applied, |n.log|, Joint(n.tracked.cfg));
      BcastAppend(AppendEntry(n.(pendingConfIndex := pending), es))
  }

  // ---------------------------------------------------------------------
  // Dispatch.

  ghost function StepLeader(n: NodeState, m: Message): NodeState {
    match m.mtype
    case MsgBeat => BcastHeartbeat(n)
    case MsgProp => HandleProposal(n, m)
    case MsgAppResp => if m.from in n.tracked.trk then HandleAppendResponse(n, m) else n
    case _ => n
  }

  ghost function StepCandidate(n: NodeState, m: Message): NodeState {
    var mine := if n.role == StatePreCandidate then MsgPreVoteResp else MsgVoteResp;
    if m.mtype == MsgApp || m.mtype == MsgSnap then BecomeFollower(n, m.term, m.from)
    else if m.mtype == MsgHeartbeat then HandleHeartbeat(BecomeFollower(n, m.term, m.from), m)
    else if m.mtype == mine then HandleVoteResponse(n, m)
    else n
  }

  ghost function StepFollower(n: NodeState, m: Message): NodeState {
    match m.mtype
    case MsgProp => if n.lead == NONE then n else Send(n, m.(to := n.lead))
    case MsgApp => HandleAppendEntries(n.(lead := m.from), m)
    case MsgHeartbeat => HandleHeartbeat(n.(lead := m.from), m)
    case _ => n
  }

  ghost function StepRole(n: NodeState, m: Message): NodeState {
    match n.role
    case StateLeader => StepLeader(n, m)
    case StateFollower => StepFollower(n, m)
    case _ => StepCandidate(n, m)
  }

  ghost function Dispatch(n: NodeState, m: Message): NodeState {
    match m.mtype
    case MsgHup => Hup(n)
    case MsgVote => HandleVoteRequest(n, m)
    case MsgPreVote => HandleVoteRequest(n, m)
    case _ => StepRole(n, m)
  }

  predicate KeepsTerm(m: Message) {
    m.mtype == MsgPreVote || (m.mtype == MsgPreVoteResp && !m.reject)
  }

  predicate FromLeader(m: Message) {
    m.mtype == MsgApp || m.mtype == MsgHeartbeat || m.mtype == MsgSnap
  }

  /** raft.Step: first the term of the message, then its type. */
  ghost function Step(n: NodeState, m: Message): NodeState {
    if m.term == 0 then Dispatch(n, m)
    else if m.term > n.term then
      if KeepsTerm(m) then Dispatch(n, m)
      else Dispatch(BecomeFollower(n, m.term, if FromLeader(m) then m.from else NONE), m)
    else if m.term < n.term then
      if (n.checkQuorum || n.preVote) && (m.mtype == MsgHeartbeat || m.mtype == MsgApp)
      then Send(n, Msg(MsgAppResp, m.from))
      else if m.mtype == MsgPreVote
      then Send(n, Msg(MsgPreVoteResp, m.from).(term := n.term, reject := true))
      else n
    else Dispatch(n, m)
  }

  // ---------------------------------------------------------------------
  // Configuration changes and the initial state.

  ghost function SwitchToConfig(n: NodeState, t: Tracked): NodeState {
    var n1 := n.(tracked := t);
    if n1.role != StateLeader || n1.id !in t.trk || t.trk[n1.id].isLearner
       || t.cfg.voters.incoming == {} then n1
    else
      var (n2, moved) := MaybeCommit(n1);
      if moved then BcastAppend(n2) else AppendToAll(n2, SortedIds(t.trk.Keys), false)
  }

  ghost function ApplyConfChange(n: NodeState, ccs: seq<ConfChangeSingle>): NodeState {
    match Simple(n.tracked, |n.log|, ccs)
    case None => Fault(n)
    case Some(t) => SwitchToConfig(n, t)
  }

  /** newRaft on empty storage. */
  function NewNode(id: nat, preVote: bool, checkQuorum: bool, maxMsgSize: nat): NodeState {
    NodeState(id, 0, NONE, StateFollower, NONE, map[], EMPTY, [], 0, 0, 0, preVote, checkQuorum, maxMsgSize,
              [], [], false)
  }

  function BootEntries(peers: seq<nat>, payload: nat -> seq<byte>): seq<Entry> {
    seq(|peers|, i requires 0 <= i < |peers| => Entry(1, i + 1, EntryConfChange, Some(payload(peers[i]))))
  }

  ghost function AddPeers(n: NodeState, peers: seq<nat>): NodeState
    decreases |peers|
  {
    if peers == [] then n
    else AddPeers(ApplyConfChange(n, [ConfChangeSingle(ADD_NODE, peers[0])]), peers[1..])
  }

  /** RawNode.Bootstrap on a new node. */
  ghost function Bootstrap(n: NodeState, peers: seq<nat>, payload: nat -> seq<byte>): NodeState {
    var n1 := BecomeFollower(n, 1, NONE);
    AddPeers(n1.(log := BootEntries(peers, payload), committed := |peers|), peers)
  }
}
