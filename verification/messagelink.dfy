/** The protocol's messages as they go over the wire. */
module MessageLink {
  import opened RaftTypes
  import opened Varint
  import opened Wire
  import opened RoundTrip
  import WireCode

  // ---------------------------------------------------------------------
  // Codes of the enumerations.

  function EntryCode(t: EntryType): int32 {
    match t
    case EntryNormal => 0
    case EntryConfChange => 1
    case EntryConfChangeV2 => 2
  }

  function EntryTypeOf(code: int32): Option<EntryType> {
    if code == 0 then Some(EntryNormal)
    else if code == 1 then Some(EntryConfChange)
    else if code == 2 then Some(EntryConfChangeV2) else None
  }

  function MessageCode(t: MessageType): int32 {
    match t
    case MsgHup => 0
    case MsgBeat => 1
    case MsgProp => 2
    case MsgApp => 3
    case MsgAppResp => 4
    case MsgVote => 5
    case MsgVoteResp => 6
    case MsgSnap => 7
    case MsgHeartbeat => 8
    case MsgHeartbeatResp => 9
    case MsgCheckQuorum => 12
    case MsgPreVote => 17
    case MsgPreVoteResp => 18
  }

  function MessageTypeOf(code: int32): Option<MessageType> {
    if code == 0 then Some(MsgHup) else if code == 1 then Some(MsgBeat) else if code == 2 then Some(MsgProp)
    else if code == 3 then Some(MsgApp) else if code == 4 then Some(MsgAppResp) else if code == 5 then Some(MsgVote)
    else if code == 6 then Some(MsgVoteResp) else if code == 7 then Some(MsgSnap)
    else if code == 8 then Some(MsgHeartbeat) else if code == 9 then Some(MsgHeartbeatResp)
    else if code == 12 then Some(MsgCheckQuorum) else if code == 17 then Some(MsgPreVote)
    else if code == 18 then Some(MsgPreVoteResp) else None
  }

  // ---------------------------------------------------------------------
  // Entries and messages.

  function ToWireEntry(e: Entry): WireEntry { WireEntry(EntryCode(e.etype), e.term, e.index, e.data) }

  /** None for an entry type that the protocol does not know. */
  function FromWireEntry(e: WireEntry): Option<Entry> {
    var t := EntryTypeOf(e.etype);
    if t.None? then None else Some(Entry(e.term, e.index, t.value, e.data))
  }

  function ToWireEntries(es: seq<Entry>): (ws: seq<WireEntry>)
    ensures |ws| == |es| && forall k :: 0 <= k < |es| ==> ws[k] == ToWireEntry(es[k])
  {
    seq(|es|, i requires 0 <= i < |es| => ToWireEntry(es[i]))
  }

  function FromWireEntries(ws: seq<WireEntry>): Option<seq<Entry>> {
    if ws == [] then Some([])
    else
      var e, rest := FromWireEntry(ws[0]), FromWireEntries(ws[1..]);
      if e.None? || rest.None? then None else Some([e.value] + rest.value)
  }

  function ToWire(m: Message): WireMessage {
    NO_MESSAGE.(mtype := MessageCode(m.mtype), to := m.to, from := m.from, term := m.term, logTerm := m.logTerm,
                index := m.index, entries := ToWireEntries(m.entries), commit := m.commit, reject := m.reject,
                rejectHint := m.rejectHint)
  }

  function FromWire(w: WireMessage): Option<Message> {
    var t, es := MessageTypeOf(w.mtype), FromWireEntries(w.entries);
    if t.None? || es.None? then None
    else Some(Message(t.value, w.to, w.from, w.term, w.logTerm, w.index, es.value, w.commit, w.reject, w.rejectHint))
  }

  lemma {:induction false} EntriesLink(es: seq<Entry>)
    ensures FromWireEntries(ToWireEntries(es)) == Some(es)
  {
    if es != [] {
      assert FromWireEntry(ToWireEntry(es[0])) == Some(es[0]);
      assert ToWireEntries(es)[1..] == ToWireEntries(es[1..]);
      assert [es[0]] + es[1..] == es;
      EntriesLink(es[1..]);
    }
  }

  /** All numbers of the message fit in 64 bits. */
  ghost predicate Sendable(m: Message) {
    && m.to < U64 && m.from < U64 && m.term < U64 && m.logTerm < U64 && m.index < U64
    && m.commit < U64 && m.rejectHint < U64
    && forall k :: 0 <= k < |m.entries| ==> m.entries[k].term < U64 && m.entries[k].index < U64
  }

  /** A protocol message that is marshalled by one node and unmarshalled by another arrives unchanged. */
  lemma MessageArrives(m: Message)
    requires Sendable(m) && |EncodeMessage(ToWire(m))| < I63
    ensures DecodeWire(EncodeMessage(ToWire(m)), 0, MessageW(NO_MESSAGE)) == Ok(MessageW(ToWire(m)))
    ensures FromWire(ToWire(m)) == Some(m)
  {
    hide DecodeWire, EncodeFields, EncodeMessage, FromWireEntries;
    EntriesLink(m.entries);
    MessageBack(ToWire(m));
  }

  /** The size that the log's limits count is the size on the wire. */
  lemma EntrySizeIsEncoded(e: Entry)
    ensures SizeOf(e) == |EncodeEntry(ToWireEntry(e))|
  {
    var f4 := OptThen(4, e.data, []);
    var f3 := [Number(3, e.index)] + f4;
    WireCode.NumberCons(1, EntryCode(e.etype), [Number(2, e.term)] + f3);
    WireCode.NumberCons(2, e.term, f3);
    WireCode.NumberCons(3, e.index, f4);
    if e.data.Some? {
      DataSize(e.data.value, |e.data.value|);
    }
  }

  lemma DataSize(data: seq<byte>, n: nat)
    requires n == |data|
    ensures |EncodeFields([Blob(4, data)] + [])| == 1 + n + Sov(n)
  {
    WireCode.BlobRoom(4, n, data, []);
  }
}
