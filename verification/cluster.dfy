/** The cluster: nodes, the set of messages ever sent, and what history remembers of elections. */
module Cluster {
  import opened RaftTypes
  import opened LogSpec
  import opened Quorum
  import opened Tracker
  import opened ConfChange
  import opened ConfEntry
  import opened RaftSpec

  /** The leader of a term and the longest log it has had in that term. */
  datatype Election = Election(leader: nat, log: seq<Entry>)

  /** A candidacy; `camps` remembers the log it was started with. */
  datatype Camp = Camp(term: nat, id: nat)

  /** `net` only grows: a message in it may arrive any number of times, in any order, or never. */
  datatype Cluster = Cluster(
    peers: set<nat>, boot: seq<Entry>, nodes: map<nat, NodeState>, net: set<Message>,
    elected: map<nat, Election>, camps: map<Camp, seq<Entry>>)

  ghost function Out(n: NodeState): set<Message> {
    (set m | m in n.msgs) + (set m | m in n.msgsAfterAppend)
  }

  ghost function Flush(n: NodeState): NodeState { n.(msgs := [], msgsAfterAppend := []) }

  /** Node `i` becomes `n`, and its queued messages enter the network. */
  ghost function Update(s: Cluster, i: nat, n: NodeState): Cluster {
    s.(nodes := s.nodes[i := Flush(n)],
       net := s.net + Out(n),
       elected := if n.role == StateLeader then s.elected[n.term := Election(i, n.log)] else s.elected,
       camps := if n.role == StateCandidate then s.camps[Camp(n.term, i) := n.log] else s.camps)
  }

  datatype Event =
    | Deliver(m: Message)
    | Timeout(i: nat)                                   // MsgHup, from a tick or from Campaign
    | Beat(i: nat)                                      // MsgBeat
    | Propose(i: nat, entries: seq<Entry>)              // MsgProp from a client; every change in it decodes
    | SendRun(i: nat, to: nat, prev: nat, len: nat)     // a leader sends any run of its log
    | ConfApplied(i: nat, id: nat)                      // a committed bootstrap entry is applied
    | AppliedTo(i: nat, applied: nat)                   // the application reports progress

  ghost predicate Init(s: Cluster, peers: seq<nat>, payload: nat -> seq<byte>) {
    && peers != [] && 0 !in peers
    && s.peers == Elems(peers) && s.boot == BootEntries(peers, payload)
    && s.nodes.Keys == s.peers
    && (forall i :: i in s.nodes ==>
          exists pv, cq, mx :: s.nodes[i] == Bootstrap(NewNode(i, pv, cq, mx), peers, payload))
    && s.net == {} && s.elected == map[] && s.camps == map[]
  }

  ghost function AppRun(n: NodeState, to: nat, prev: nat, len: nat): Message
    requires prev + len <= |n.log|
  {
    AppMsg(n, to, prev, n.log[prev..prev + len]).(from := n.id, term := n.term)
  }

  ghost predicate Next(s: Cluster, e: Event, s': Cluster) {
    match e
    case Deliver(m) => m in s.net && m.to in s.nodes && s' == Update(s, m.to, Step(s.nodes[m.to], m))
    case Timeout(i) => i in s.nodes && s' == Update(s, i, Step(s.nodes[i], Msg(MsgHup, 0).(from := i)))
    case Beat(i) => i in s.nodes && s' == Update(s, i, Step(s.nodes[i], Msg(MsgBeat, 0).(from := i)))
    case Propose(i, es) =>
      && i in s.nodes && Proposable(es)
      && s' == Update(s, i, Step(s.nodes[i], Msg(MsgProp, 0).(from := i, entries := es)))
    case SendRun(i, to, prev, len) =>
      && i in s.nodes && s.nodes[i].role == StateLeader && to in s.peers && to != i
      && prev + len <= |s.nodes[i].log|
      && s' == s.(net := s.net + {AppRun(s.nodes[i], to, prev, len)})
    case ConfApplied(i, id) =>
      && i in s.nodes && id in s.peers
      && s' == Update(s, i, ApplyConfChange(s.nodes[i], [ConfChangeSingle(ADD_NODE, id)]))
    case AppliedTo(i, applied) =>
      && i in s.nodes && applied <= s.nodes[i].committed
      && s' == Update(s, i, s.nodes[i].(applied := applied))
  }

  /** A run: `trace[k + 1]` follows from `trace[k]` by one event. */
  ghost predicate IsRun(trace: seq<Cluster>, peers: seq<nat>, payload: nat -> seq<byte>) {
    && trace != [] && Init(trace[0], peers, payload)
    && StepsAlong(trace)
  }

  ghost predicate StepsAlong(trace: seq<Cluster>) {
    forall k: nat {:trigger StepAt(trace, k)} :: k + 1 < |trace| ==> StepAt(trace, k)
  }

  ghost predicate StepAt(trace: seq<Cluster>, k: nat)
    requires k + 1 < |trace|
  {
    Steps(trace[k], trace[k + 1])
  }

  ghost predicate Steps(s: Cluster, s': Cluster) { exists e :: Next(s, e, s') }
}
