# A verified model of the yyckv Raft core

`yyckv` is a Go key-value store on a Raft library in the style of etcd. The library is only partly
filled in: elections, votes, follower append, the two-part log, simple membership changes, the
Ready/Advance hand-off and the wire codec are there; the leader's commit index, snapshots, reject
handling and flow control are stubs. This project models what is there and proves what the
algorithm and the code promise.

## How it is organised

| layer | files |
|---|---|
| entries, messages, size limits | `types.dfy` |
| vote counting, progress, membership | `quorum.dfy`, `tracker.dfy`, `confchange.dfy`, `changer.dfy` |
| the log as one sequence, and in two parts | `logspec.dfy`, `raftlog.dfy` |
| the tail over shared arrays | `goslice.dfy` |
| one node: functions on its state, and the object | `raftspec.dfy`, `raft.dfy` |
| what is queued for sending; the node loop; `RawNode` and `node` | `queues.dfy`, `nodeloop.dfy`, `rawnode.dfy` |
| the cluster, its invariant and its proof | `cluster.dfy`, `invariant.dfy`, `preserve.dfy`, `completeness.dfy`, `nodesteps.dfy`, `elections.dfy`, `replication.dfy`, `events.dfy` |
| the theorems about every run | `safety.dfy` |
| what a node does about each message, in fields and messages | `reactions.dfy`, `exchanges.dfy`, `proposals.dfy` |
| where the data in the logs comes from | `provenance.dfy` |
| the same cluster with node loops and waiting messages | `deployed.dfy` |
| what a Ready hands to the application, and how far that gets | `handover.dfy` |
| runs that get somewhere | `witness.dfy`, `progress.dfy` |
| the application | `apply.dfy` |
| the wire codec | `varint.dfy`, `wire.dfy`, `roundtrip.dfy`, `wirecode.dfy` |
| the bytes, key by key | `layout.dfy` |
| what the codec means to the protocol | `confentry.dfy`, `messagelink.dfy` |
| configuration changes as text | `conftext.dfy` |

**One node.** `RaftSpec` gives every reaction of a node as a function on a record of its state. The
class `RaftNode.Raft` has the fields of the Go object and updates them in place; each of its methods
ensures that the object's view changes exactly as the function says. A Go panic is the flag `fault`
in the functions and a precondition of the methods. `Safety.StepPanicsExactly` says exactly when a step
that a node of a run can take panics: when a leader is proposed no entries, or a configuration change
that does not decode. `Safety.BadChangePanics` gives such a proposal. The log inside the object is the
two-part log of `TwoPartLog.RaftLog`, itself proved against the plain sequence of `LogSpec`.

What those functions promise is stated apart from them: for every kind of message `Reactions`,
`Exchanges` and `Proposals` give the exact new state, field by field, and the exact messages that are
queued, and `Provenance.StepFrom` goes through them as a table that leaves no case out. In the same way
`Layout` gives the bytes of every wire type with their literal keys, and what each key does on the way in.

**The cluster.** `Cluster.Next` is one event at one node: a message delivered (any message ever sent,
any number of times, in any order, or never), an election timeout, a heartbeat tick, a proposal whose
configuration changes decode (`ConfEntry.Proposable`, which a client can check), the re-application of
a bootstrap configuration change, or progress of the application up to the commit index. Every node
starts from `Bootstrap` with the same peers. Two history variables remember, for each term, the elected
leader and its longest log, and for each candidacy the log it started with.

A node's queued messages enter the network of `Cluster` at once. In `Deployed` they do not: every node
runs its loop, messages leave it only with an accepted Ready, and those to itself are stepped by
Advance. `Deployed.Simulated` shows that every run of that system is a run of the cluster, seen at some
of its moments, and the theorems carry over.

The theorems are not about empty runs. `Progressing.DataCanSpread` shows that in the deployment every
peer can be elected, and that any data it is then proposed can reach every log and be acknowledged.

In the code a leader in replicate state sends no entries (`maybeSendAppend` skips reading them) and
its size limit is never set. The event `SendRun` therefore also lets a leader send any contiguous run
of its log, so that the replication theorems speak about more than probes.

**What the code's stubs mean for the theorems.** `ProgressTracker.Committed` returns 0, so no commit
index ever moves past the bootstrap entries (`Safety.NeverPanics` proves this), and the voters stay
the bootstrap peers. Leader completeness is therefore stated on acknowledgements: an entry of the
leader's own term that the leader has recorded as matched for a majority. In the code `applied` stays
0, so every proposed configuration change is refused; the event `AppliedTo` moves it up to the commit
index so that the rule on pending changes is proved where it can matter.

**The codec.** The generated code has one decoding loop per message type, all alike but for the
switch on the field number. The model has one loop over a sum of the nine types, with the switch as
`KindOf`, `PutNumber`, `PutBytes` and `PutNested`. `wire |= (b & 0x7f) << shift` is modelled as adding
`(b % 128) * 128^k` modulo 2^64, which is the same because the bits are disjoint. Encoding follows the
Protocol Buffers encoding specification, sections "Base 128 Varints", "Length-Delimited Records" and
"Packed Repeated Fields".

**Where code and comments disagree.** The comment on `ConfChangesToString` calls it the inverse of
the parser; it is one exactly on the four known types (`ConfText.TextRoundTrip`), because an unknown
type prints as text that starts with `u`, the letter of an update, and then does not parse. The packed
branch of `ConfState.Unmarshal` bounds each number by the end of the input and not by the end of the
packed field; the model keeps that.

## Model

| member | source | states |
|---|---|---|
| Safety.ElectionSafety | raft/core/raft.go:301-447 | over every run, with messages lost, repeated and reordered and pre-vote on or off at each node, no two nodes lead one term at any two moments |
| Safety.KnownLeaderLeads | raft/core/raft.go:613-645 | a node that at any moment names a leader for its term names the one that leads that term at any other moment |
| Safety.LogMatching | raft/core/log.go:85-139 | two entries with one index and term, in any two logs at any two moments, have the same prefix up to and including them |
| Safety.LogTermsOrdered | raft/core/raft.go:1219-1248 | terms along a log never decrease nor exceed the node's own term, and indices are positions |
| Safety.MatchIsTruthful | raft/core/raft.go:889-956 | for every leader and peer the match is below next, next is at most last index + 1, and while the peer is in the leader's term both logs agree up to the match |
| Safety.LeaderCompleteness | raft/core/raft.go:391-439 | an own-term entry that a leader has recorded for a majority is, with everything before it, in the log of every leader of a later term at any moment of the run, earlier moments included |
| Safety.NeverPanics | raft/core/raft.go:676-714 | no node of any run has reached a panic; the commit index and the voters stay those of bootstrap, and the committed prefix is never changed |
| Safety.StepPanicsExactly | raft/core/raft.go:818-848 | in any state of any run, a message that may reach a node, a tick or any proposal panics iff the node leads and the proposal has no entries or a configuration change that does not decode; otherwise the precondition of Raft.Step holds |
| Safety.BadChangePanics | raft/core/raft.go:836-841 | one configuration-change entry with the single byte 0x0c makes any leader panic |
| ConfEntry.BadChangeFails | raft/raftpb/raft.pb.go:2661-2801 | that byte is a key of wire type 4, which Unmarshal refuses |
| ConfProposal.MarshalledChangeDecodes | raft/core/raft.go:836-841 | the data of a marshalled ConfChange decodes to that one change, so proposing it does not panic |
| ConfProposal.MarshalledChangeV2Decodes | raft/core/raft.go:842-848 | the same for ConfChangeV2 and its list of changes |
| ConfProposal.UnmarshalChanges | raft/core/raft.go:836-853 | the number of single changes, from the code's own Unmarshal |
| Safety.OnePendingChange | raft/core/raft.go:833-875 | a configuration change enters a leader's log only when every earlier one in it, of the same batch too, is at or below the applied index |
| Safety.ScreenedChange | raft/core/raft.go:864-870 | the same rule for one proposal on any leader whose pending index covers the changes in its log |
| Safety.RunInv | raft/core/bootstrap.go:8-58 | the invariant of the proof holds at every moment of every run that starts from Bootstrap |
| Safety.RunEvolves | raft/core/raft.go:1188-1217 | along a run terms, messages and elections only grow, leaders' logs only extend, and no acknowledgement of a term appears after its sender has left the term |
| Safety.BootstrapShape | raft/core/bootstrap.go:29-57 | Bootstrap leaves a follower of term 1 with the peers as voters and their entries committed |
| Witness.BootstrapIs | raft/core/bootstrap.go:8-58 | every field that Bootstrap leaves: the committed changes with their data, the voters, and a progress for each that probes from the last of those entries |
| Witness.EveryPeerCanLead | raft/core/raft.go:449-595 | whatever the peers, each of them leads in some run of the cluster |
| Reactions.NewerTerm | raft/core/raft.go:305-328 | a message of a higher term makes the node a follower of that term, with everything reset, before it is handled; not so pre-vote requests and granted pre-votes |
| Reactions.OlderTerm | raft/core/raft.go:330-380 | a message of a lower term is answered with the own term only where the source does, and changes nothing |
| Reactions.VoteIsAnswered | raft/core/raft.go:391-439 | a vote is granted iff the request is of a new term, or repeats the vote cast, or finds neither a vote nor a leader, and its last term and index are lexicographically at least the own; the answer and what is remembered of it, in every field |
| Reactions.HupCampaigns | raft/core/raft.go:449-514 | an election timeout of a voter that does not lead: the new state, one request to each other voter in increasing order with the own last position, and the own vote |
| Exchanges.VoteIsCounted | raft/core/raft.go:571-590 | the election is won iff more than half of each configuration has said yes, lost iff that is no longer possible; a winner's log, progress and appends, in every field |
| Exchanges.PreVoteIsCounted | raft/core/raft.go:571-590 | the same for a pre-vote, whose winner starts the real campaign |
| Exchanges.AppendIsSent | raft/core/raft.go:1111-1178 | a peer that can be reached is sent an append right behind what precedes its next entry; unless it is in replicate state, with the longest non-empty run from there on that the size limit allows |
| Exchanges.NothingToSend | raft/core/raft.go:1126-1163 | what happens for any other peer: nothing, or the panic of the snapshot state |
| Exchanges.BeatIsSent | raft/core/raft.go:975-1011 | one heartbeat to each other peer, with the commit index up to its match |
| Exchanges.AckIsRecorded | raft/core/raft.go:885-956 | match, next, state and flags after an acknowledgement or a rejection, and the empty append that a paused peer gets |
| Exchanges.OldAppendIsAnswered | raft/core/raft.go:676-681 | an append below the commit index is answered with that index |
| Exchanges.AppendIsAccepted | raft/core/raft.go:682-686 | a fitting append: the log overwritten from the first entry that differs, the commit index, and the acknowledgement up to the last entry sent |
| Exchanges.AppendIsRejected | raft/core/raft.go:687-714 | any other append: the rejection with the largest position that could match |
| Exchanges.BeatIsAnswered | raft/core/raft.go:716-719 | a heartbeat makes its sender the leader and is answered |
| Exchanges.CandidateYields | raft/core/raft.go:562-570 | a candidate follows the leader of its own term |
| Exchanges.ProposalIsForwarded | raft/core/raft.go:613-628 | a follower hands a proposal to the leader it knows, or drops it |
| Exchanges.OthersAreIgnored | raft/core/raft.go:552-674 | the messages that change nothing in each role |
| Exchanges.ConfIsApplied | raft/core/raft.go:1250-1332 | the configuration is installed, and a leader that still votes offers the peers what is due to them |
| Proposals.ProposalIsAppended | raft/core/raft.go:818-880 | a proposal enters the leader's log whole, with the proposed types and data, the leader's term and the next indices; only a refused configuration change becomes an empty entry, and exactly which are refused |
| Provenance.StepFrom | raft/core/raft.go:301-447 | whatever the message, every entry of the new log and of every new message is accounted for by the old log, the message or a new leader's empty entry |
| Origins.DataWasProposed | raft/core/raft.go:818-880 | all data past the bootstrap entries, in any log at any moment of a run, was proposed before with that type |
| Events.NextKeeps | raft/core/raft.go:301-447 | every event keeps the invariant |
| Completeness.InvKept | raft/core/raft.go:391-439 | any node change that obeys the local rule keeps shape and completeness of the whole cluster |
| Completeness.WinnerHolds | raft/core/log.go:323-325 | the log a winner campaigned with holds every entry that a majority had acknowledged or still can, by the up-to-date test and majority overlap |
| Completeness.UpToDateHolds | raft/core/log.go:323-325 | the up-to-date test on a voter that holds a protected entry implies that the candidate holds it |
| Elections.VoteRequestAllowed | raft/core/raft.go:391-439 | answering a vote request obeys the local rule: one real grant per voter and term, never to a log that is behind |
| Elections.BecomeLeaderAllowed | raft/core/raft.go:742-778 | a candidate with a won quorum becomes leader with one empty entry of its term, fresh progress and a covering pending index |
| Elections.RealCampaignAllowed | raft/core/raft.go:468-514 | a candidacy raises the term, votes for itself and asks with its own log position |
| Replication.MergeFollowsLeader | raft/core/log.go:85-139 | appending a run of the leader's log never conflicts at a committed index, and leaves a log that agrees with the leader's up to the run's end and loses nothing that agreed |
| Replication.HandleAppendAllowed | raft/core/raft.go:676-714 | handling an append obeys the local rule: every acknowledged index is held |
| Replication.AppendResponseAllowed | raft/core/raft.go:889-956 | recording an acknowledgement keeps match, next and state in order, stale and zero indexes included |
| Replication.ScreenKeepsPending | raft/core/raft.go:833-875 | after the proposal loop the pending index covers every change that stays, and at most one does while none is applied |
| Quorum.VoteResultExact | raft/core/quorum/joint.go:29-43 | won iff every completion of the missing votes wins, lost iff none does, pending otherwise, for majority and joint configurations |
| Quorum.DecidedIsStable | raft/core/tracker/tracker.go:157-162 | once won or lost, no recorded vote changes the result |
| Quorum.QuorumsMeet | raft/core/quorum/majority.go:44-73 | two majorities of one non-empty configuration share a voter |
| Quorum.CountMajority | raft/core/quorum/majority.go:44-73 | the counting loop computes the specified result |
| Quorum.CountJoint | raft/core/quorum/joint.go:29-43 | the joint result |
| Quorum.IDs | raft/core/quorum/joint.go:16-24 | the map built by the two loops is the union |
| Tracker.ProgressOrdered | raft/core/tracker/progress.go:33-89 | acknowledgements and state changes keep match below next, and match is the largest index acknowledged |
| Tracker.InsertionSort | raft/core/tracker/tracker.go:141-148 | sorts in place: ordered, and a permutation of what was there |
| Tracker.CollectKeys | raft/core/tracker/tracker.go:108-116 | the back-to-front fill holds every tracked id once |
| Tracker.VisitOrder | raft/core/tracker/tracker.go:101-121 | Visit walks the tracked ids in increasing order, each once |
| ConfChange.SimpleQuorumsMeet | raft/core/confchange/confchange.go:21-38 | after a successful simple change every old majority meets every new one |
| ConfChange.SimpleChainKeeps | raft/core/confchange/confchange.go:67-157 | along any chain of successful changes from the empty tracker, progress keys are voters plus learners, the two are disjoint and the learner flags agree: what checkInvariants leaves to do |
| ConfChange.SimpleDecides | raft/core/confchange/confchange.go:21-99 | a node votes afterwards iff the last change about it added it, or there is none and it voted before; Simple fails iff the state is joint, a type is unexpected, nobody is left or more than one voter changed |
| ConfChange.NewNodeIsProbed | raft/core/confchange/confchange.go:117-140 | a node that is new gets a progress that probes it with the last index |
| ConfChange.ReAddIsIdentity | raft/core/confchange/confchange.go:103-114 | adding a voter again changes nothing, as when bootstrap entries are applied a second time |
| ConfChange.Apply | raft/core/confchange/confchange.go:75-99 | the apply loop computes the specified configuration, or fails on a learner addition or an empty voter set |
| ConfChange.RunSimple | raft/core/confchange/confchange.go:21-38 | the whole of Simple on values; fails in a joint state or when more than one voter changes |
| Changers.CheckAndCopy | raft/core/confchange/confchange.go:43-53 | new maps and a new cell for each peer, which show the same tracker and share no object |
| Changers.MakeVoter | raft/core/confchange/confchange.go:103-114 | the maps and the cell changed in place, or a new cell, show the specified tracker |
| Changers.Remove | raft/core/confchange/confchange.go:142-157 | the same for a removal; the progress stays while the peer votes in the outgoing half |
| Changers.Apply | raft/core/confchange/confchange.go:75-99 | the loop in place on the copies |
| Changers.Simple | raft/core/confchange/confchange.go:21-53 | the result is a fresh tracker as specified, or an error; either way no object of the caller is modified |
| ConfChange.SymDiff | raft/core/confchange/confchange.go:185-199 | the two loops count the symmetric difference |
| LogSpec.MaybeAppendSound | raft/core/log.go:85-105 | follower append holds everything sent, keeps what precedes the first conflict and the committed prefix, never lowers the commit index, drops nothing on a stale or repeated message, and otherwise ends with the last entry sent |
| LogSpec.MaybeAppendIdempotent | raft/core/log.go:85-105 | the same message a second time changes nothing |
| LogSpec.FindConflictExact | raft/core/log.go:128-139 | the conflict index is the first that the log lacks or holds with another term, zero iff there is none |
| LogSpec.FindConflictByTermIsLargest | raft/core/log.go:154-166 | the answer is the largest index at or below the argument whose term is at most the given one or unknown |
| LogSpec.HintIsSound | raft/core/raft.go:688-713 | no index above the reject hint and up to the rejected one can match the sender's log |
| RaftTypes.LimitSizeIsLongest | raft/core/util.go:75-87 | limitSize returns the longest prefix within the limit, and never an empty one of a non-empty slice |
| RaftTypes.LimitSizeLoop | raft/core/util.go:75-87 | the accumulating loop computes it |
| TwoPartLog.MemoryStorage.Append | raft/core/storage.go:130-163 | truncates and extends storage, or leaves it alone when there is nothing new |
| TwoPartLog.StorageAppendIs | raft/core/storage.go:130-163 | storage afterwards: unchanged if there is nothing new, else the old entries up to the first new one and the new ones; a panic exactly on a gap |
| TwoPartLog.AppendCapturesLog | raft/core/storage.go:130-163 | right after appending any captured log, however stale, storage holds exactly that log |
| TwoPartLog.StorageNeverShows | raft/core/log.go:270-296 | with the tail starting at 1, term, last index and slice depend neither on what storage holds nor on how its Entries answers |
| TwoPartLog.StorageIsReached | raft/core/storage.go:75-78 | the unimplemented MemoryStorage.Entries makes slice panic exactly for a non-empty range of the log that starts before the tail, so never with the tail at 1 |
| TwoPartLog.TermInExact | raft/core/log.go:270-296 | looking in the tail, then in storage, gives the term of the whole log |
| TwoPartLog.TruncateAndAppendSplices | raft/core/log_unstable.go:79-101 | the three cases of truncateAndAppend all splice the entries into the whole log |
| TwoPartLog.SliceIsLimitedRange | raft/core/log.go:347-416 | for all bounds: the storage part, the tail part and the size cuts together return exactly the size-limited range of the whole log, ErrCompacted below the first index, a panic on reversed or too large bounds |
| TwoPartLog.LimitSizeJoins | raft/core/log.go:371-392 | cutting the joined range is keeping the first part and cutting the rest, less one entry that does not fit |
| TwoPartLog.RaftLog.FindConflict | raft/core/log.go:128-139 | the loop over the two-part log finds the specified index |
| TwoPartLog.RaftLog.FindConflictByTerm | raft/core/log.go:154-166 | the downward loop finds the specified pair |
| TwoPartLog.RaftLog.Append | raft/core/log.go:107-116 | the new log is the old one with the entries spliced in |
| TwoPartLog.RaftLog.CommitTo | raft/core/log.go:252-260 | the commit index becomes the larger of the two |
| TwoPartLog.RaftLog.MaybeAppend | raft/core/log.go:85-105 | the two-part log does what the sequence specification says, result and commit index included |
| TwoPartLog.RaftLog.Slice | raft/core/log.go:347-416 | the size-limited range of the whole log, or ErrCompacted below its first index |
| TwoPartLog.RaftLog.Entries | raft/core/log.go:298-303 | the size-limited rest of the log, nothing past its end, ErrCompacted at 0 |
| TwoPartLog.RaftLog.NextCommittedEnts | raft/core/log.go:192-216 | a run of the committed log right after the applying index, non-empty if there is anything; its precondition is the absence of the panic about a size that is not positive |
| SharedTail.GoAppend | raft/core/log_unstable.go:85-96 | append grows in place within the capacity, or copies to a fresh array |
| SharedTail.SharedUnstable.NextEntries | raft/core/log_unstable.go:71-77 | hands out the part not in progress, or nil; the object remembers what it showed |
| SharedTail.SharedUnstable.Slice | raft/core/log_unstable.go:103-109 | hands out a range whose capacity is its length |
| SharedTail.SharedUnstable.LimitedSlice | raft/core/log.go:354-359 | hands out the size-limited range with its capacity cut |
| SharedTail.SharedUnstable.TruncateAndAppend | raft/core/log_unstable.go:79-101 | refines the value-level tail, and every slice handed out before still shows what it showed then (kept by Valid) |
| SharedTail.SharedUnstable.AppendAbove | raft/core/log.go:107-116 | on a bootstrapped node, whose tail starts at 1 and which appends above its commit index, the tail never takes over the slice of the caller and keeps starting at 1; every slice handed out keeps showing the same |
| RaftNode.Raft.constructor | raft/core/raft.go:260-299 | a follower of term 0 on empty storage |
| RaftNode.Raft.Send | raft/core/raft.go:1015-1100 | stamps sender and term, and queues by message type |
| RaftNode.Raft.Reset | raft/core/raft.go:1188-1217 | new term, vote kept only within a term, votes and pending index cleared, every progress started over |
| RaftNode.Raft.BecomeFollower | raft/core/raft.go:530-537 | the object's change is the specified one |
| RaftNode.Raft.BecomeCandidate | raft/core/raft.go:539-550 | the object's change is the specified one |
| RaftNode.Raft.BecomePreCandidate | raft/core/raft.go:597-611 | changes neither term nor vote |
| RaftNode.Raft.BecomeLeader | raft/core/raft.go:742-778 | the object's change is the specified one |
| RaftNode.Raft.AppendEntry | raft/core/raft.go:1219-1248 | stamps and appends the entries and queues the acknowledgement to itself; Proposals.ProposalIsAppended says with which type, data, term and index |
| RaftNode.Raft.MaybeSendAppend | raft/core/raft.go:1111-1178 | the message, the progress update and the returned flag; Exchanges.AppendIsSent and NothingToSend say which entries go to which peer |
| RaftNode.Raft.VisitAppend | raft/core/raft.go:965-972 | one attempt per peer, in increasing order |
| RaftNode.Raft.BcastHeartbeat | raft/core/raft.go:975-1011 | one heartbeat per peer, with the commit index bounded by its match |
| RaftNode.Raft.Campaign | raft/core/raft.go:468-514 | requests to every voter in order, and the vote for oneself |
| RaftNode.Raft.Hup | raft/core/raft.go:449-466 | campaigns unless leading or not promotable |
| RaftNode.Raft.HandleVoteRequest | raft/core/raft.go:391-439 | grant or rejection, with the terms of the reply, and the vote recorded for a real grant; Reactions.VoteIsAnswered says which of the two |
| RaftNode.Raft.Poll | raft/core/raft.go:516-524 | the first vote of each node counts |
| RaftNode.Raft.HandleVoteResponse | raft/core/raft.go:571-590 | second round, leadership, or back to follower |
| RaftNode.Raft.HandleAppendEntries | raft/core/raft.go:676-714 | commit index repeated, append acknowledged, or rejection with its hint |
| RaftNode.Raft.HandleAppendResponse | raft/core/raft.go:889-956 | progress recorded and the follow-up messages sent |
| RaftNode.Raft.SendRemaining | raft/core/raft.go:943-946 | the loop that sends while anything is sent ends, at once in replicate state |
| RaftNode.Raft.HandleProposal | raft/core/raft.go:818-880 | decoding, screening, appending and broadcasting; the two panics are its precondition |
| RaftNode.Raft.ScreenEntries | raft/core/raft.go:833-875 | the loop decodes each change, replaces refused ones in place and advances the pending index |
| RaftNode.Raft.StepLeader | raft/core/raft.go:810-963 | dispatch of a leader |
| RaftNode.Raft.StepCandidate | raft/core/raft.go:552-595 | dispatch of a candidate or pre-candidate, to which only its own kind of vote response counts |
| RaftNode.Raft.StepFollower | raft/core/raft.go:613-674 | dispatch of a follower |
| RaftNode.Raft.Step | raft/core/raft.go:301-447 | every message changes the object exactly as the node function of the cluster model says |
| RaftNode.Raft.ApplyConfChange | raft/core/raft.go:1250-1270 | the configuration and the messages that follow |
| RaftNode.Raft.SwitchToConfig | raft/core/raft.go:1278-1332 | the new configuration, and probes to its peers from a leader |
| RaftNode.Raft.Bootstrap | raft/core/bootstrap.go:8-58 | the initial state of the cluster model, or an error on storage that is not empty or without peers |
| Queues.StepAppends | raft/core/raft.go:1081-1099 | a step only appends to the two queues: messages for other nodes to one, acknowledgements and vote responses to the other; and a panic stays one |
| Queues.StepAhead | raft/core/raft.go:301-447 | messages already waiting in the queues influence nothing and stay in front |
| Queues.ApplyAhead | raft/core/raft.go:1250-1270 | the same when a configuration change is applied |
| NodeLoop.MessagesConserved | raft/core/rawnode.go:94-186 | at every moment of every run of the loop, each sent message has been handed out, or stepped, or waits, in the order of sending |
| NodeLoop.AdvancedMeansDelivered | raft/core/rawnode.go:174-186 | when no Ready is open and nothing waits, all messages for others are in the accepted Readys and all self-addressed ones have been stepped |
| NodeLoop.ReadyIsFresh | raft/core/node.go:177-260 | whenever a Ready can be accepted it describes the node's present state, and the panic about two accepted Readys is out of reach |
| NodeLoop.TurnKeeps | raft/core/node.go:198-266 | every arm of the select keeps the balance and the order of the channels |
| Turns.LeaderTicks | raft/core/raft.go:781-808 | a leader's elapsed timeout queues one heartbeat for each other peer |
| Turns.OthersTick | raft/core/raft.go:721-736 | any other node's elapsed timeout starts a campaign, if it is a voter |
| Turns.StrangersAreIgnored | raft/core/node.go:208-213 | a response from a node that is not tracked is dropped, and nothing else |
| Turns.ProposalsNeedLeader | raft/core/node.go:183-196 | proposals are taken only while a leader is known, and as soon as one becomes known |
| Turns.RemovedTakesNone | raft/core/node.go:212-245 | a removed node takes no proposals until it hears of another leader |
| Turns.ConfIsInstalled | raft/core/node.go:212-245 | the configuration arm installs what the change leads to |
| RawNodes.RawNode.ReadyWithoutAccept | raft/core/rawnode.go:94-127 | the Ready of the node loop, whose contents Handover.ReadyIsComplete spells out |
| RawNodes.RawNode.AcceptReady | raft/core/rawnode.go:129-165 | empties both queues and keeps the self-addressed messages to step |
| RawNodes.RawNode.Advance | raft/core/rawnode.go:174-186 | steps them in order |
| RawNodes.RawNode.Tick | raft/core/raft.go:721-808 | what an elapsed timeout makes of the current role |
| RawNodes.Node.Refresh | raft/core/node.go:178-196 | the top of the loop |
| RawNodes.Node.Choose | raft/core/node.go:198-266 | one arm of the select |
| RawNodes.Node.ApplyConf | raft/core/node.go:212-245 | the configuration arm: a node removed from the voters takes no more proposals |
| RawNodes.Node.Run | raft/core/node.go:167-268 | the loop over any sequence of choices is the fold of its turns |
| RawNodes.RunConserves | raft/core/node.go:167-268 | what the loop does is a run in which every message is conserved |
| Deployed.TurnSimulated | raft/core/node.go:177-266 | every turn of every node loop, with messages still waiting in its queues, is simulated by steps of the cluster |
| Deployed.Simulated | raft/core/node.go:167-268 | every run of the deployment is a run of the cluster, seen at some of its moments in order |
| Deployed.OneLeaderPerTerm | raft/core/node.go:167-268 | election safety for nodes that hold messages back |
| Deployed.LogsAgree | raft/core/node.go:167-268 | log matching for them, between any two moments |
| Deployed.LaterLeadersHold | raft/core/node.go:167-268 | leader completeness for them, at any two moments |
| Deployed.TurnsNeverPanic | raft/core/node.go:177-266 | no turn of any node loop of any run panics: the precondition of Node.Choose |
| Progressing.DataCanSpread | raft/core/node.go:167-268 | whatever the peers, each of them can be elected by turns of the node loops alone, and whatever data it is then proposed can reach every log and be recorded as matched for everybody |
| CommittedPrefix.StepStays | raft/core/raft.go:301-447 | no message, whatever is in it, lowers a commit index or changes an entry up to it |
| Handover.ReadyIsComplete | raft/core/rawnode.go:94-127 | a Ready is offered iff messages wait and none is open; it carries the whole log, the longest part of the committed entries that fits, at least one, and all messages for others in order |
| Handover.AppliedFollowsLog | kv/raftNode.go:138-193 | an application that is given the accepted Readys has published exactly the entries of the node's own log up to its applied index, once each; unless stopped that is as far as any Ready went, and never past the commit index |
| Apply.ExactlyOnce | kv/raftNode.go:231-296 | over any Readys that deliver runs of the committed log, repeated and overlapping, the published payloads are those of the entries 1 to the applied index, once each and in order, and so are the configuration changes until a stop |
| Apply.StoreIsFold | kv/kvstore.go:65-74 | the map read from the commits is the fold of the applied prefix |
| Apply.FoldHoldsLast | kv/kvstore.go:65-74 | the map holds for each key the value of its last payload, or what it held before |
| Apply.PayloadsAreData | kv/raftNode.go:253-261 | the payloads are the data of exactly the normal entries that carry any, in their order |
| Apply.ChangesAreRead | kv/raftNode.go:262-265 | the configuration changes are those of exactly the entries of that type, in their order |
| Apply.RoutesAreLast | kv/raftNode.go:262-278 | the transport knows a peer by the address of the last change about it, or not at all; a node never drops itself |
| Apply.ProposedChangeIsApplied | kv/raftNode.go:262-265 | the configuration change that was marshalled into an entry is the one that the application reads from it |
| Apply.ReadyCatchesUp | kv/raftNode.go:247-296 | a run without a gap brings the applied index to its end iff no entry in it removes this node and the stop channel does not win |
| Apply.NewPart | kv/raftNode.go:231-243 | a re-delivered run is cut right after the applied index; a gap is an exit |
| Apply.KvNode.EntriesToApply | kv/raftNode.go:231-243 | the unsigned offset that wraps around when the run starts right after the applied index is the true offset |
| Apply.KvNode.PublishEntry | kv/raftNode.go:253-279 | one entry: payload, configuration change, or own removal |
| Apply.KvNode.PublishEntries | kv/raftNode.go:247-296 | commits and applied index move together, or neither does |
| Apply.KvNode.HandleReady | kv/raftNode.go:175-184 | storage holds exactly the log of the Ready, its messages are sent, its entries published and its peers routed |
| Apply.Kvstore.ReadCommits | kv/kvstore.go:48-80 | the store is the fold of all commits over what it held |
| Varint.EncodeVarint | raft/raftpb/raft.pb.go:1233-1243 | writes exactly the encoding, in front of the offset, and nothing else |
| Varint.DecodeVarint | raft/raftpb/raft.pb.go:1427-1441 | the loop that is repeated for every number, overflow after ten bytes and end of input included |
| Varint.DecodesBack | raft/raftpb/raft.pb.go:1233-1243 | every uint64 survives encoding and decoding, wherever it stands |
| Varint.SovRaftIsLength | raft/raftpb/raft.pb.go:1416-1418 | the bit-length formula is the number of bytes |
| Layout.VarintBytes | raft/raftpb/raft.pb.go:1233-1243 | the seven-bit digits stand for the number, lowest first, with the high bit on all but the last and no leading zero |
| Layout.NumberIsRead | raft/raftpb/raft.pb.go:1427-1441 | on any bytes: the number that the digits stand for, cut to 64 bits, overlong forms included, or overflow after ten bytes, or the end of the input |
| Layout.FixedIsSkipped | raft/raftpb/raft.pb.go:3027-3104 | what an unknown fixed-size field or an empty group takes up, and the errors of a stray group end and of unknown wire types |
| Layout.MessageBytes | raft/raftpb/raft.pb.go:937-1025 | every byte of a message: literal keys, which field stands behind which, and in what order |
| Layout.EntryBytes | raft/raftpb/raft.pb.go:819-841 | the same for an entry |
| Layout.MetadataBytes | raft/raftpb/raft.pb.go:858-880 | the same for snapshot metadata |
| Layout.SnapshotBytes | raft/raftpb/raft.pb.go:897-920 | the same for a snapshot |
| Layout.HardStateBytes | raft/raftpb/raft.pb.go:1042-1057 | the same for a hard state |
| Layout.ConfStateBytes | raft/raftpb/raft.pb.go:1074-1116 | the same for a configuration state |
| Layout.ChangeBytes | raft/raftpb/raft.pb.go:1133-1155 | the same for a configuration change |
| Layout.SingleBytes | raft/raftpb/raft.pb.go:1172-1184 | the same for a single change |
| Layout.ChangeV2Bytes | raft/raftpb/raft.pb.go:1201-1231 | the same for a ConfChangeV2 |
| Layout.ProtocolBytes | raft/raftpb/raft.pb.go:937-1025 | the same for a message of the protocol, with the numbers of its enumerations |
| Layout.MessageNumbers | raft/raftpb/raft.pb.go:1801-2179 | on the way in, the number behind each key byte of a message sets exactly the named field |
| Layout.MessageBlobs | raft/raftpb/raft.pb.go:1801-2179 | and each length-delimited field appends or sets exactly the named one, or is the error of its nested message |
| Layout.EntryReads | raft/raftpb/raft.pb.go:1422-1562 | the same for an entry |
| Layout.MetadataReads | raft/raftpb/raft.pb.go:1563-1683 | the same for snapshot metadata |
| Layout.SnapshotReads | raft/raftpb/raft.pb.go:1684-1800 | the same for a snapshot |
| Layout.ConfStateReads | raft/raftpb/raft.pb.go:2287-2660 | the same for a configuration state, its lists alone or packed |
| Layout.ChangeReads | raft/raftpb/raft.pb.go:2661-2801 | the same for a configuration change |
| Layout.SingleReads | raft/raftpb/raft.pb.go:2802-2889 | the same for a single change |
| Layout.HardStateReads | raft/raftpb/raft.pb.go:2180-2286 | the same for a hard state |
| Layout.ChangeV2Reads | raft/raftpb/raft.pb.go:2890-3026 | the same for a ConfChangeV2 |
| RoundTrip.MessageBack | raft/raftpb/raft.pb.go:1801-2179 | every message, with entries, snapshot and responses to any depth, is what decoding its encoding returns |
| RoundTrip.EntryBack | raft/raftpb/raft.pb.go:1422-1562 | every entry survives, a nil and an empty payload kept apart |
| RoundTrip.SnapshotBack | raft/raftpb/raft.pb.go:1684-1800 | every snapshot survives |
| RoundTrip.MetadataBack | raft/raftpb/raft.pb.go:1563-1683 | every snapshot metadata survives |
| RoundTrip.ConfStateBack | raft/raftpb/raft.pb.go:2287-2660 | every configuration state survives |
| RoundTrip.ChangeBack | raft/raftpb/raft.pb.go:2661-2801 | every configuration change survives |
| RoundTrip.SingleBack | raft/raftpb/raft.pb.go:2802-2889 | every single change survives |
| RoundTrip.ChangeV2Back | raft/raftpb/raft.pb.go:2890-3026 | every ConfChangeV2 with its list of changes survives |
| RoundTrip.HardStateBack | raft/raftpb/raft.pb.go:2180-2286 | every hard state survives |
| RoundTrip.FieldsDecode | raft/raftpb/raft.pb.go:1801-2179 | decoding any sequence of encoded fields puts the known ones in order and passes over unknown ones |
| RoundTrip.FieldReads | raft/raftpb/raft.pb.go:2287-2660 | a known field is read back alone, length-delimited or packed |
| RoundTrip.UnknownSkips | raft/raftpb/raft.pb.go:3027-3104 | skipRaft ends exactly at the end of an unknown field |
| WireCode.MarshalMessage | raft/raftpb/raft.pb.go:937-1025 | fills the buffer backwards with exactly the encoding, nested messages included, and writes nowhere else; Layout.MessageBytes gives the bytes |
| WireCode.MarshalEntry | raft/raftpb/raft.pb.go:819-841 | the same for an entry |
| WireCode.MarshalMetadata | raft/raftpb/raft.pb.go:858-880 | the same for snapshot metadata |
| WireCode.MarshalSnapshot | raft/raftpb/raft.pb.go:897-920 | the same for a snapshot |
| WireCode.MarshalConfState | raft/raftpb/raft.pb.go:1074-1116 | the same for a configuration state |
| WireCode.MarshalChange | raft/raftpb/raft.pb.go:1133-1155 | the same for a configuration change |
| WireCode.MarshalSingle | raft/raftpb/raft.pb.go:1172-1184 | the same for a single change |
| WireCode.MarshalChangeV2 | raft/raftpb/raft.pb.go:1201-1231 | the same for a ConfChangeV2 |
| WireCode.MarshalHardState | raft/raftpb/raft.pb.go:1042-1057 | the same for a hard state |
| WireCode.SizeMessage | raft/raftpb/raft.pb.go:1288-1325 | the computed size is the number of bytes written |
| WireCode.SizeEntry | raft/raftpb/raft.pb.go:1244-1258 | the same for an entry |
| WireCode.SizeConfState | raft/raftpb/raft.pb.go:1339-1367 | the same for a configuration state |
| WireCode.SizeMetadata | raft/raftpb/raft.pb.go:1260-1271 | the same for snapshot metadata |
| WireCode.SizeSnapshot | raft/raftpb/raft.pb.go:1273-1286 | the same for a snapshot |
| WireCode.SizeChange | raft/raftpb/raft.pb.go:1369-1383 | the same for a configuration change |
| WireCode.SizeSingle | raft/raftpb/raft.pb.go:1385-1394 | the same for a single change |
| WireCode.SizeChangeV2 | raft/raftpb/raft.pb.go:1396-1414 | the same for a ConfChangeV2 |
| WireCode.SizeHardState | raft/raftpb/raft.pb.go:1327-1337 | the same for a hard state |
| WireCode.Marshal | raft/raftpb/raft.pb.go:922-930 | a buffer of exactly that size, filled from the first byte |
| WireCode.SkipRaft | raft/raftpb/raft.pb.go:3027-3104 | the loop over groups and wire types, with its error cases |
| WireCode.ReadNumbersAt | raft/raftpb/raft.pb.go:2377-2396 | the packed loop |
| WireCode.ReadField | raft/raftpb/raft.pb.go:1805-1835 | one turn of the decoding loop: key, wire type, payload or skip |
| WireCode.Unmarshal | raft/raftpb/raft.pb.go:1801-2179 | the decoding loop computes the specified result on every input, and reads nothing outside it; Layout says what each key byte does |
| WireCode.Transfer | raft/raftpb/raft.pb.go:922-1025 | the code's own Marshal followed by its Unmarshal returns the message |
| MessageLink.MessageArrives | raft/raftpb/raft.pb.go:922-1025 | a message of the protocol that one node marshals and another unmarshals is the same message |
| MessageLink.EntrySizeIsEncoded | raft/core/util.go:62-68 | the size that the log's limits count is the number of bytes of the entry on the wire |
| ConfText.TextRoundTrip | raft/raftpb/confchange.go:106-161 | parsing the printed list returns it iff every type is one of the four and every id a uint64; otherwise it is an error |
| ConfText.TextIs | raft/raftpb/confchange.go:140-161 | the text: one letter and the decimal id for each change, v, r, u or l, separated by single spaces |
| ConfText.DecimalIs | raft/raftpb/confchange.go:157 | the digits stand for the number, without leading zeros |
| ConfText.ParseIs | raft/raftpb/confchange.go:127-131 | a number parses iff it is all digits and fits in 64 bits, leading zeros included, and to what they stand for |
| ConfText.ParsedIsStable | raft/raftpb/confchange.go:106-161 | whatever parses prints to a text that parses to the same |
| ConfText.ConfChangesToString | raft/raftpb/confchange.go:140-161 | the printing loop |
| ConfText.ConfChangesFromString | raft/raftpb/confchange.go:106-137 | the parsing loop, errors included |
| ConfText.ParseUintLoop | raft/raftpb/confchange.go:127-131 | the decimal number, or an error at another character or past 64 bits |

## Left out

- Commit by quorum: the code's `Committed` is a stub, so nothing is claimed about it.
- Crashes and restarts: the hard state is neither stored nor restored by the code.
- `RestartNode` and the join path.
- Snapshots, async storage writes, joint membership changes and learner additions: stubs in the code.
- Reject handling at the leader, inflight limits, heartbeat responses, leader transfer, read index and quorum checks: empty or commented out in the code.
- Liveness: no claim that an election ends or an entry is replicated.
- The randomised timeout: the model lets a timeout pass at any time.
- The error values that Step returns, and the waiting of Propose.
- Terms and indexes of the protocol are unbounded: an overflow of a 64-bit term is not modelled.
- Log compaction: the first index is 1, as in the code, which never compacts.
- RaftNode.Raft.HandleAppendEntries: requires entries numbered consecutively from the index of the message, as every sender in the cluster sends them.
- TwoPartLog.RaftLog.Slice: `MemoryStorage.Entries` is not implemented in the code, so storage is given the contract of its interface; a node whose tail starts at 1 never reads it.
- RaftNode.Raft.constructor: storage that already holds entries, as after a restart.
- SharedTail.SharedUnstable.TruncateAndAppend: a caller whose slice replaces the tail must not have been shown cells behind it, a case that AppendAbove does not have; the log inside `RaftNode.Raft` holds the tail as a value, which this class refines.
- Progress is a value in a map where the code has a pointer, except in `Changers`.
- Wire.DecodeWire: which of several errors in one malformed input is reported first is kept for one message but not claimed as a theorem.
- ConfText.TrimSpace: white space beyond Latin-1.
- Gob and JSON encoding of the store: a parameter of the model.
- Apply.ReadChange: the application ignores an error of Unmarshal; the fields that a failing one leaves behind are a parameter.
- Transport, HTTP, listeners, logging and the URL picker.
