/** What the data of a configuration-change entry decodes to. */
module ConfEntry {
  import opened RaftTypes
  import Varint
  import Wire

  /** The bytes of a slice that may be nil. */
  function Bytes(data: Option<seq<byte>>): seq<byte> { if data.None? then [] else data.value }

  /** The single changes of the entry; None where unmarshalling its data fails. */
  function DecodedChanges(e: Entry): Option<seq<ConfChangeSingle>> {
    match e.etype
    case EntryNormal => Some([])
    case EntryConfChange =>
      (match Wire.DecodeWire(Bytes(e.data), 0, Wire.ChangeW(Wire.NO_CHANGE))
       case Err(_) => None
       case Ok(w) => Some([ConfChangeSingle(w.h.ctype, w.h.nodeID)]))
    case EntryConfChangeV2 =>
      (match Wire.DecodeWire(Bytes(e.data), 0, Wire.ChangeV2W(Wire.NO_CHANGE_V2))
       case Err(_) => None
       case Ok(w) => Some(w.v2.changes))
  }

  predicate Decodes(e: Entry) { DecodedChanges(e).Some? }

  /** What a leader can be proposed without panicking; a caller can check it beforehand. */
  predicate Proposable(es: seq<Entry>) {
    es != [] && AllDecode(es)
  }

  predicate AllDecode(es: seq<Entry>) {
    forall k :: 0 <= k < |es| ==> Decodes(es[k])
  }

  /** Number of single changes, for entries that decode. */
  function Changes(e: Entry): nat { if Decodes(e) then |DecodedChanges(e).value| else 0 }

  /** An entry whose data is one key byte of wire type 4. */
  const BAD_CHANGE := Entry(0, 0, EntryConfChange, Some([0x0c]))

  /** It does not decode, and so makes the leader that it is proposed to panic. */
  lemma BadChangeFails()
    ensures !Decodes(BAD_CHANGE)
  {
    var s: seq<byte> := [0x0c];
    assert Varint.Pow128(0) == 1;
    assert Varint.Decode(s, 0) == Varint.Ok(Varint.Read(12, 1));
    assert Wire.NextField(Wire.ChangeW(Wire.NO_CHANGE), s, 0) == Varint.Err(Varint.EndGroup);
  }
}

/** Between the encoder and the proposal loop. */
module ConfProposal {
  import opened RaftTypes
  import opened ConfEntry
  import Varint
  import Wire
  import RoundTrip
  import WireCode

  /** Number of single changes in the entry; an error of Unmarshal would be a panic. */
  method UnmarshalChanges(e: Entry) returns (n: nat)
    requires IsConfChange(e) && Decodes(e)
    ensures n == Changes(e)
  {
    if e.etype == EntryConfChange {
      n := 1;
      var r := WireCode.Unmarshal(Bytes(e.data), Wire.ChangeW(Wire.NO_CHANGE));
      if r.Err? {
        assert false;
      }
    } else {
      var r := WireCode.Unmarshal(Bytes(e.data), Wire.ChangeV2W(Wire.NO_CHANGE_V2));
      if r.Err? {
        assert false;
      }
      n := |r.value.v2.changes|;
    }
  }

  /** The data that proposing a change produces decodes to that change. */
  lemma MarshalledChangeDecodes(e: Entry, h: Wire.ConfChange)
    requires RoundTrip.WfChange(h) && |Wire.EncodeChange(h)| < Varint.I63
    requires e.etype == EntryConfChange && Bytes(e.data) == Wire.EncodeChange(h)
    ensures DecodedChanges(e) == Some([ConfChangeSingle(h.ctype, h.nodeID)])
  {
    RoundTrip.ChangeBack(h);
  }

  lemma MarshalledChangeV2Decodes(e: Entry, v: Wire.ConfChangeV2)
    requires RoundTrip.WfChangeV2(v) && |Wire.EncodeChangeV2(v)| < Varint.I63
    requires e.etype == EntryConfChangeV2 && Bytes(e.data) == Wire.EncodeChangeV2(v)
    ensures DecodedChanges(e) == Some(v.changes)
  {
    RoundTrip.ChangeV2Back(v);
  }
}
