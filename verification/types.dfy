/** Values shared by the log, the protocol and the applications above it. */
module RaftTypes {

  datatype Option<+T> = None | Some(value: T)

  type byte = x: int | 0 <= x < 256

  type int32 = x: int | -0x8000_0000 <= x < 0x8000_0000

  type pos = x: int | x > 0 witness 1

  const U64: nat := 0x1_0000_0000_0000_0000

  datatype EntryType = EntryNormal | EntryConfChange | EntryConfChangeV2

  /** `data` is None for a nil byte slice. */
  datatype Entry = Entry(term: nat, index: nat, etype: EntryType, data: Option<seq<byte>>)

  predicate IsConfChange(e: Entry) { e.etype != EntryNormal }

  /** One membership change; types other than these four may come from the wire. */
  const ADD_NODE: int32 := 0
  const REMOVE_NODE: int32 := 1
  const UPDATE_NODE: int32 := 2
  const ADD_LEARNER: int32 := 3

  datatype ConfChangeSingle = ConfChangeSingle(ctype: int32, nodeID: nat)

  /** Entries numbered consecutively from `first`. */
  ghost predicate Contiguous(ents: seq<Entry>, first: nat) {
    forall k :: 0 <= k < |ents| ==> ents[k].index == first + k
  }

  // ---------------------------------------------------------------------
  // Encoded sizes and the size-limited prefix.

  /** Bytes of the base-128 encoding of `x`. */
  function Sov(x: nat): (n: nat)
    ensures n >= 1
  {
    if x < 128 then 1 else 1 + Sov(x / 128)
  }

  function SizeOf(e: Entry): (n: nat)
    ensures n >= 6
  {
    1 + 1 + (1 + Sov(e.term)) + (1 + Sov(e.index))
    + (if e.data.Some? then 1 + |e.data.value| + Sov(|e.data.value|) else 0)
  }

  function EntsSize(ents: seq<Entry>): nat {
    if ents == [] then 0 else EntsSize(ents[..|ents| - 1]) + SizeOf(ents[|ents| - 1])
  }

  /** `k` entries fit: a single one always does, more only within `maxSize`. */
  predicate Fits(ents: seq<Entry>, k: nat, maxSize: nat)
    requires k <= |ents|
  {
    k <= 1 || EntsSize(ents[..k]) <= maxSize
  }

  /** Length of the longest prefix of `ents`, at least `k`, that fits. */
  function LimitLen(ents: seq<Entry>, k: nat, maxSize: nat): (n: nat)
    requires k <= |ents|
    ensures k <= n <= |ents|
    decreases |ents| - k
  {
    if k < |ents| && Fits(ents, k + 1, maxSize) then LimitLen(ents, k + 1, maxSize) else k
  }

  function LimitSize(ents: seq<Entry>, maxSize: nat): seq<Entry> {
    ents[..LimitLen(ents, 0, maxSize)]
  }

  lemma {:induction false} SizeMonotone(ents: seq<Entry>, a: nat, b: nat)
    requires a <= b <= |ents|
    ensures EntsSize(ents[..a]) + 6 * (b - a) <= EntsSize(ents[..b])
    decreases b
  {
    if a < b {
      SizeMonotone(ents, a, b - 1);
      assert ents[..b][..b - 1] == ents[..b - 1];
    }
  }

  lemma {:induction false} LimitLenExact(ents: seq<Entry>, k: nat, maxSize: nat)
    requires k <= |ents| && Fits(ents, k, maxSize)
    ensures var n := LimitLen(ents, k, maxSize);
            && Fits(ents, n, maxSize)
            && forall j :: n < j <= |ents| ==> !Fits(ents, j, maxSize)
    decreases |ents| - k
  {
    if k < |ents| && Fits(ents, k + 1, maxSize) {
      LimitLenExact(ents, k + 1, maxSize);
    } else {
      forall j | k < j <= |ents| ensures !Fits(ents, j, maxSize) {
        SizeMonotone(ents, k + 1, j);
      }
    }
  }

  /** LimitSize is the longest prefix that fits, and drops nothing from a single entry. */
  lemma LimitSizeIsLongest(ents: seq<Entry>, maxSize: nat)
    ensures var r := LimitSize(ents, maxSize);
            && r <= ents && Fits(ents, |r|, maxSize)
            && (forall j :: |r| < j <= |ents| ==> !Fits(ents, j, maxSize))
            && (ents != [] ==> r != [])
  {
    LimitLenExact(ents, 0, maxSize);
  }

  /** A prefix that fits and cannot be lengthened is the limited slice. */
  lemma LimitSizeUnique(ents: seq<Entry>, n: nat, maxSize: nat)
    requires n <= |ents| && Fits(ents, n, maxSize)
    requires n < |ents| ==> !Fits(ents, n + 1, maxSize)
    ensures LimitSize(ents, maxSize) == ents[..n]
  {
    LimitSizeIsLongest(ents, maxSize);
    var m := |LimitSize(ents, maxSize)|;
    if n < m {
      SizeMonotone(ents, n + 1, m);
    }
  }

  /** The accumulating loop of limitSize. */
  method LimitSizeLoop(ents: seq<Entry>, maxSize: nat) returns (r: seq<Entry>)
    ensures r == LimitSize(ents, maxSize)
  {
    if |ents| == 0 {
      return ents;
    }
    assert ents[..1][..0] == [];
    var size := SizeOf(ents[0]);
    var limit := 1;
    while limit < |ents|
      invariant 1 <= limit <= |ents|
      invariant size == EntsSize(ents[..limit])
      invariant Fits(ents, limit, maxSize)
    {
      assert ents[..limit + 1][..limit] == ents[..limit];
      size := size + SizeOf(ents[limit]);
      if size > maxSize {
        LimitSizeUnique(ents, limit, maxSize);
        return ents[..limit];
      }
      limit := limit + 1;
    }
    LimitSizeUnique(ents, |ents|, maxSize);
    return ents;
  }

  // ---------------------------------------------------------------------
  // Messages, with the fields that the protocol reads.

  datatype MessageType =
    | MsgHup | MsgBeat | MsgProp | MsgApp | MsgAppResp | MsgVote | MsgVoteResp | MsgSnap
    | MsgHeartbeat | MsgHeartbeatResp | MsgCheckQuorum | MsgPreVote | MsgPreVoteResp

  datatype Message = Message(
    mtype: MessageType, to: nat, from: nat, term: nat, logTerm: nat, index: nat,
    entries: seq<Entry>, commit: nat, reject: bool, rejectHint: nat)

  /** A message of type `t` with every other field zero. */
  function Msg(t: MessageType, to: nat): Message {
    Message(t, to, 0, 0, 0, 0, [], 0, false, 0)
  }
}
