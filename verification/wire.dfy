/** The wire format of the messages: what the generated code writes, and what it reads back. */
module Wire {
  import opened RaftTypes
  import opened Varint

  // ---------------------------------------------------------------------
  // The messages. A byte slice is None when nil; repeated fields are plain sequences.

  datatype WireEntry = WireEntry(etype: int32, term: nat, index: nat, data: Option<seq<byte>>)

  datatype ConfState = ConfState(
    voters: seq<nat>, learners: seq<nat>, votersOutgoing: seq<nat>, learnersNext: seq<nat>, autoLeave: bool)

  datatype SnapshotMetadata = SnapshotMetadata(confState: ConfState, index: nat, term: nat)

  datatype Snapshot = Snapshot(data: Option<seq<byte>>, metadata: SnapshotMetadata)

  datatype WireMessage = WireMessage(
    mtype: int32, to: nat, from: nat, term: nat, logTerm: nat, index: nat, entries: seq<WireEntry>,
    commit: nat, snapshot: Option<Snapshot>, reject: bool, rejectHint: nat, context: Option<seq<byte>>,
    vote: nat, responses: seq<WireMessage>)

  datatype ConfChange = ConfChange(id: nat, ctype: int32, nodeID: nat, context: Option<seq<byte>>)

  datatype ConfChangeV2 = ConfChangeV2(transition: int32, changes: seq<ConfChangeSingle>, context: Option<seq<byte>>)

  datatype HardState = HardState(term: nat, vote: nat, commit: nat)

  const NO_CONF_STATE := ConfState([], [], [], [], false)
  const NO_METADATA := SnapshotMetadata(NO_CONF_STATE, 0, 0)
  const NO_SNAPSHOT := Snapshot(None, NO_METADATA)
  const NO_ENTRY := WireEntry(0, 0, 0, None)
  const NO_MESSAGE := WireMessage(0, 0, 0, 0, 0, 0, [], 0, None, false, 0, None, 0, [])
  const NO_CHANGE := ConfChange(0, 0, 0, None)
  const NO_SINGLE := ConfChangeSingle(0, 0)
  const NO_CHANGE_V2 := ConfChangeV2(0, [], None)
  const NO_HARD_STATE := HardState(0, 0, 0)

  /** Any of them: the decoding loop is the same for all but for the fields it knows. */
  datatype Wire =
    | EntryW(e: WireEntry) | ConfStateW(c: ConfState) | MetadataW(d: SnapshotMetadata)
    | SnapshotW(s: Snapshot) | MessageW(m: WireMessage) | ChangeW(h: ConfChange)
    | SingleW(g: ConfChangeSingle) | ChangeV2W(v2: ConfChangeV2) | HardStateW(hs: HardState)

  // ---------------------------------------------------------------------
  // Fields.

  datatype Field = Number(num: nat, v: nat) | Numbers(num: nat, vs: seq<nat>) | Blob(num: nat, data: seq<byte>)

  datatype FieldKind = NumberKind | NumbersKind | BlobKind | UnknownKind

  function KindOf(w: Wire, num: nat): FieldKind {
    match w
    case EntryW(_) => if 1 <= num <= 3 then NumberKind else if num == 4 then BlobKind else UnknownKind
    case ConfStateW(_) => if 1 <= num <= 4 then NumbersKind else if num == 5 then NumberKind else UnknownKind
    case MetadataW(_) => if num == 1 then BlobKind else if 2 <= num <= 3 then NumberKind else UnknownKind
    case SnapshotW(_) => if 1 <= num <= 2 then BlobKind else UnknownKind
    case MessageW(_) =>
      if 1 <= num <= 6 || num == 8 || num == 10 || num == 11 || num == 13 then NumberKind
      else if num == 7 || num == 9 || num == 12 || num == 14 then BlobKind else UnknownKind
    case ChangeW(_) => if 1 <= num <= 3 then NumberKind else if num == 4 then BlobKind else UnknownKind
    case SingleW(_) => if 1 <= num <= 2 then NumberKind else UnknownKind
    case ChangeV2W(_) => if num == 1 then NumberKind else if 2 <= num <= 3 then BlobKind else UnknownKind
    case HardStateW(_) => if 1 <= num <= 3 then NumberKind else UnknownKind
  }

  /** A repeated number may come alone or packed. */
  predicate Knows(w: Wire, f: Field) {
    match KindOf(w, f.num)
    case NumberKind => f.Number?
    case NumbersKind => f.Number? || f.Numbers?
    case BlobKind => f.Blob?
    case UnknownKind => false
  }

  function EncodeNumbers(vs: seq<nat>): seq<byte> {
    if vs == [] then [] else Encode(vs[0]) + EncodeNumbers(vs[1..])
  }

  function Key(num: nat, wireType: nat): nat { 8 * num + wireType }

  function EncodeField(f: Field): seq<byte> {
    match f
    case Number(num, v) => Encode(Key(num, 0)) + Encode(v)
    case Numbers(num, vs) => Encode(Key(num, 2)) + (Encode(|EncodeNumbers(vs)|) + EncodeNumbers(vs))
    case Blob(num, data) => Encode(Key(num, 2)) + (Encode(|data|) + data)
  }

  function EncodeFields(fs: seq<Field>): seq<byte> {
    if fs == [] then [] else EncodeField(fs[0]) + EncodeFields(fs[1..])
  }

  // ---------------------------------------------------------------------
  // Marshalling: the fields of every message, in the order of their numbers.

  function ToU64(x: int32): (v: nat)
    ensures v < U64
  {
    if x < 0 then x + U64 else x
  }

  /** The low 32 bits, as a signed number. */
  function ToInt32(v: nat): int32 {
    var w := v % 0x1_0000_0000; if w < 0x8000_0000 then w else w - 0x1_0000_0000
  }

  function Bool(b: bool): nat { if b then 1 else 0 }

  /** An optional byte slice, then the fields that follow it. */
  function OptThen(num: nat, data: Option<seq<byte>>, rest: seq<Field>): seq<Field> {
    if data.None? then rest else [Blob(num, data.value)] + rest
  }

  /** A repeated number, one field each. */
  function RepeatedThen(num: nat, vs: seq<nat>, rest: seq<Field>): seq<Field> {
    if vs == [] then rest else [Number(num, vs[0])] + RepeatedThen(num, vs[1..], rest)
  }

  function EntryFields(e: WireEntry): seq<Field> {
    [Number(1, ToU64(e.etype))] + ([Number(2, e.term)] + ([Number(3, e.index)] + OptThen(4, e.data, [])))
  }

  function EncodeEntry(e: WireEntry): seq<byte> { EncodeFields(EntryFields(e)) }

  function ConfStateFields(c: ConfState): seq<Field> {
    RepeatedThen(1, c.voters, RepeatedThen(2, c.learners, RepeatedThen(3, c.votersOutgoing,
      RepeatedThen(4, c.learnersNext, [Number(5, Bool(c.autoLeave))] + []))))
  }

  function EncodeConfState(c: ConfState): seq<byte> { EncodeFields(ConfStateFields(c)) }

  function MetadataFields(d: SnapshotMetadata): seq<Field> {
    [Blob(1, EncodeConfState(d.confState))] + ([Number(2, d.index)] + ([Number(3, d.term)] + []))
  }

  function EncodeMetadata(d: SnapshotMetadata): seq<byte> { EncodeFields(MetadataFields(d)) }

  function SnapshotFields(s: Snapshot): seq<Field> {
    OptThen(1, s.data, [Blob(2, EncodeMetadata(s.metadata))] + [])
  }

  function EncodeSnapshot(s: Snapshot): seq<byte> { EncodeFields(SnapshotFields(s)) }

  function ChangeFields(h: ConfChange): seq<Field> {
    [Number(1, h.id)] + ([Number(2, ToU64(h.ctype))] + ([Number(3, h.nodeID)] + OptThen(4, h.context, [])))
  }

  function EncodeChange(h: ConfChange): seq<byte> { EncodeFields(ChangeFields(h)) }

  function SingleFields(g: ConfChangeSingle): seq<Field> {
    [Number(1, ToU64(g.ctype))] + ([Number(2, g.nodeID)] + [])
  }

  function EncodeSingle(g: ConfChangeSingle): seq<byte> { EncodeFields(SingleFields(g)) }

  function SinglesThen(gs: seq<ConfChangeSingle>, rest: seq<Field>): seq<Field> {
    if gs == [] then rest else [Blob(2, EncodeSingle(gs[0]))] + SinglesThen(gs[1..], rest)
  }

  function ChangeV2Fields(v: ConfChangeV2): seq<Field> {
    [Number(1, ToU64(v.transition))] + SinglesThen(v.changes, OptThen(3, v.context, []))
  }

  function EncodeChangeV2(v: ConfChangeV2): seq<byte> { EncodeFields(ChangeV2Fields(v)) }

  function HardStateFields(h: HardState): seq<Field> {
    [Number(1, h.term)] + ([Number(2, h.vote)] + ([Number(3, h.commit)] + []))
  }

  function EncodeHardState(h: HardState): seq<byte> { EncodeFields(HardStateFields(h)) }

  function EntriesThen(es: seq<WireEntry>, rest: seq<Field>): seq<Field> {
    if es == [] then rest else [Blob(7, EncodeEntry(es[0]))] + EntriesThen(es[1..], rest)
  }

  function HeadThen(m: WireMessage, rest: seq<Field>): seq<Field> {
    [Number(1, ToU64(m.mtype))] + ([Number(2, m.to)] + ([Number(3, m.from)] + ([Number(4, m.term)]
    + ([Number(5, m.logTerm)] + ([Number(6, m.index)] + rest)))))
  }

  function SnapshotThen(s: Option<Snapshot>, rest: seq<Field>): seq<Field> {
    if s.None? then rest else [Blob(9, EncodeSnapshot(s.value))] + rest
  }

  function MiddleThen(m: WireMessage, rest: seq<Field>): seq<Field> {
    [Number(8, m.commit)] + SnapshotThen(m.snapshot, [Number(10, Bool(m.reject))]
    + ([Number(11, m.rejectHint)] + OptThen(12, m.context, [Number(13, m.vote)] + rest)))
  }

  function EncodeMessage(m: WireMessage): seq<byte>
    decreases m
  {
    EncodeFields(HeadThen(m, EntriesThen(m.entries, MiddleThen(m,
      seq(|m.responses|, i requires 0 <= i < |m.responses| => Blob(14, EncodeMessage(m.responses[i])))))))
  }

  function ResponseFields(ms: seq<WireMessage>): (fs: seq<Field>)
    ensures |fs| == |ms|
  {
    if ms == [] then [] else [Blob(14, EncodeMessage(ms[0]))] + ResponseFields(ms[1..])
  }

  function MessageFields(m: WireMessage): seq<Field> {
    HeadThen(m, EntriesThen(m.entries, MiddleThen(m, ResponseFields(m.responses))))
  }

  // ---------------------------------------------------------------------
  // Reading one field.

  /** The bytes that a decoded length announces. */
  function TakeBytes(s: seq<byte>, r: Result<Read<nat>>): Result<Read<seq<byte>>> {
    match r
    case Err(e) => Err(e)
    case Ok(Read(n, next)) =>
      if n >= I63 || next + n >= I63 then Err(InvalidLength)
      else if next + n > |s| then Err(UnexpectedEOF)
      else Ok(Read(s[next..next + n], next + n))
  }

  function ReadBytes(s: seq<byte>, at: nat): (r: Result<Read<seq<byte>>>)
    requires at <= |s|
    ensures r.Ok? ==> at < r.value.next <= |s| && |r.value.value| < |s|
  {
    TakeBytes(s, Decode(s, at))
  }

  /** The packed loop stops at `post`, but lets its last number run on to the end of the input. */
  function ReadNumbers(s: seq<byte>, at: nat, post: nat): (r: Result<Read<seq<nat>>>)
    requires at <= |s|
    ensures r.Ok? ==> at <= r.value.next <= |s|
    decreases |s| - at
  {
    if at >= post then Ok(Read([], at))
    else
      match Decode(s, at)
      case Err(e) => Err(e)
      case Ok(Read(v, next)) =>
        match ReadNumbers(s, next, post)
        case Err(e) => Err(e)
        case Ok(Read(vs, end)) => Ok(Read([v] + vs, end))
  }

  function ReadPacked(s: seq<byte>, at: nat): (r: Result<Read<seq<nat>>>)
    requires at <= |s|
    ensures r.Ok? ==> at < r.value.next <= |s|
  {
    match ReadBytes(s, at)
    case Err(e) => Err(e)
    case Ok(Read(packed, post)) => ReadNumbers(s, post - |packed|, post)
  }

  /** skipRaft from index `at` of its own slice on, inside `depth` open groups. */
  function SkipFrom(s: seq<byte>, at: nat, depth: nat): (r: Result<nat>)
    ensures r.Ok? ==> r.value > at
    decreases if at <= |s| then |s| - at else 0
  {
    if at >= |s| then Err(UnexpectedEOF)
    else
      match Decode(s, at)
      case Err(e) => Err(e)
      case Ok(Read(wire, next)) =>
        match SkipPayload(s, next, wire % 8)
        case Err(e) => Err(e)
        case Ok(end) =>
          if wire % 8 == 4 && depth == 0 then Err(UnexpectedEndOfGroup)
          else
            var depth1 := if wire % 8 == 3 then depth + 1 else if wire % 8 == 4 then depth - 1 else depth;
            if depth1 == 0 then Ok(end) else SkipFrom(s, end, depth1)
  }

  /** What follows a key of each wire type; the end may lie past the input. */
  function SkipPayload(s: seq<byte>, at: nat, wireType: nat): (r: Result<nat>)
    requires at <= |s|
    ensures r.Ok? ==> r.value >= at
  {
    if wireType == 0 then
      match Decode(s, at)
      case Err(e) => Err(e)
      case Ok(Read(_, next)) => Ok(next)
    else if wireType == 1 then Ok(at + 8)
    else if wireType == 2 then
      match Decode(s, at)
      case Err(e) => Err(e)
      case Ok(Read(n, next)) => if n >= I63 || next + n >= I63 then Err(InvalidLength) else Ok(next + n)
    else if wireType == 3 || wireType == 4 then Ok(at)
    else if wireType == 5 then Ok(at + 4)
    else Err(IllegalWireType)
  }

  function Skip(s: seq<byte>, at: nat): (r: Result<Read<Option<Field>>>)
    requires at <= |s|
    ensures r.Ok? ==> at < r.value.next <= |s| && r.value.value.None?
  {
    match SkipFrom(s[at..], 0, 0)
    case Err(e) => Err(e)
    case Ok(n) =>
      if at + n >= I63 then Err(InvalidLength)
      else if at + n > |s| then Err(UnexpectedEOF)
      else Ok(Read(None, at + n))
  }


  /** One turn of the loop in Unmarshal: the key, then a known field, or an unknown one that is skipped. */
  function NextField(w: Wire, s: seq<byte>, at: nat): (r: Result<Read<Option<Field>>>)
    requires at < |s|
    ensures r.Ok? ==> at < r.value.next <= |s|
    ensures r.Ok? && r.value.value.Some? ==> Knows(w, r.value.value.value)
    ensures r.Ok? && r.value.value.Some? && r.value.value.value.Blob? ==> |r.value.value.value.data| < |s|
  {
    match Decode(s, at)
    case Err(e) => Err(e)
    case Ok(Read(wire, next)) =>
      var fieldNum, wireType := ToInt32(wire / 8), wire % 8;
      if wireType == 4 then Err(EndGroup)
      else if fieldNum <= 0 then Err(IllegalTag)
      else
        match KindOf(w, fieldNum)
        case NumberKind =>
          if wireType != 0 then Err(WrongWireType) else AsNumber(fieldNum, Decode(s, next))
        case NumbersKind =>
          if wireType == 0 then AsNumber(fieldNum, Decode(s, next))
          else if wireType == 2 then AsNumbers(fieldNum, ReadPacked(s, next))
          else Err(WrongWireType)
        case BlobKind =>
          if wireType != 2 then Err(WrongWireType) else AsBlob(fieldNum, ReadBytes(s, next))
        case UnknownKind => Skip(s, at)
  }

  function AsNumber(num: nat, r: Result<Read<nat>>): Result<Read<Option<Field>>> {
    match r
    case Err(e) => Err(e)
    case Ok(Read(v, next)) => Ok(Read(Some(Number(num, v)), next))
  }

  function AsNumbers(num: nat, r: Result<Read<seq<nat>>>): Result<Read<Option<Field>>> {
    match r
    case Err(e) => Err(e)
    case Ok(Read(vs, next)) => Ok(Read(Some(Numbers(num, vs)), next))
  }

  function AsBlob(num: nat, r: Result<Read<seq<byte>>>): Result<Read<Option<Field>>> {
    match r
    case Err(e) => Err(e)
    case Ok(Read(data, next)) => Ok(Read(Some(Blob(num, data)), next))
  }

  // ---------------------------------------------------------------------
  // Unmarshalling.

  predicate SameType(a: Wire, b: Wire) {
    && (a.EntryW? <==> b.EntryW?) && (a.ConfStateW? <==> b.ConfStateW?) && (a.MetadataW? <==> b.MetadataW?)
    && (a.SnapshotW? <==> b.SnapshotW?) && (a.MessageW? <==> b.MessageW?) && (a.ChangeW? <==> b.ChangeW?)
    && (a.SingleW? <==> b.SingleW?) && (a.ChangeV2W? <==> b.ChangeV2W?) && (a.HardStateW? <==> b.HardStateW?)
  }

  function Listed(f: Field): seq<nat>
    requires !f.Blob?
  {
    if f.Number? then [f.v] else f.vs
  }

  /** A number field of a message that has no nested one. */
  function PutNumber(w: Wire, num: nat, v: nat): (r: Wire)
    requires KindOf(w, num) == NumberKind
    ensures SameType(w, r)
  {
    match w
    case EntryW(e) =>
      EntryW(if num == 1 then e.(etype := ToInt32(v)) else if num == 2 then e.(term := v) else e.(index := v))
    case ConfStateW(c) => ConfStateW(c.(autoLeave := v != 0))
    case MetadataW(d) => MetadataW(if num == 2 then d.(index := v) else d.(term := v))
    case SnapshotW(s) => SnapshotW(s)
    case MessageW(m) =>
      MessageW(if num == 1 then m.(mtype := ToInt32(v)) else if num == 2 then m.(to := v)
               else if num == 3 then m.(from := v) else if num == 4 then m.(term := v)
               else if num == 5 then m.(logTerm := v) else if num == 6 then m.(index := v)
               else if num == 8 then m.(commit := v) else if num == 10 then m.(reject := v != 0)
               else if num == 11 then m.(rejectHint := v) else m.(vote := v))
    case ChangeW(h) =>
      ChangeW(if num == 1 then h.(id := v) else if num == 2 then h.(ctype := ToInt32(v)) else h.(nodeID := v))
    case SingleW(g) => SingleW(if num == 1 then g.(ctype := ToInt32(v)) else g.(nodeID := v))
    case ChangeV2W(c) => ChangeV2W(c.(transition := ToInt32(v)))
    case HardStateW(h) =>
      HardStateW(if num == 1 then h.(term := v) else if num == 2 then h.(vote := v) else h.(commit := v))
  }

  function PutNumbers(c: ConfState, num: nat, vs: seq<nat>): ConfState {
    if num == 1 then c.(voters := c.voters + vs)
    else if num == 2 then c.(learners := c.learners + vs)
    else if num == 3 then c.(votersOutgoing := c.votersOutgoing + vs)
    else c.(learnersNext := c.learnersNext + vs)
  }

  /** The nested message that a blob is decoded into: the one already there, or a new one. */
  function Nested(w: Wire, num: nat): Option<Wire> {
    match w
    case MetadataW(d) => Some(ConfStateW(d.confState))
    case SnapshotW(s) => if num == 2 then Some(MetadataW(s.metadata)) else None
    case MessageW(m) =>
      if num == 7 then Some(EntryW(NO_ENTRY))
      else if num == 9 then Some(SnapshotW(if m.snapshot.None? then NO_SNAPSHOT else m.snapshot.value))
      else if num == 14 then Some(MessageW(NO_MESSAGE)) else None
    case ChangeV2W(_) => if num == 2 then Some(SingleW(NO_SINGLE)) else None
    case _ => None
  }

  function PutNested(w: Wire, num: nat, x: Wire): (r: Wire)
    requires KindOf(w, num) == BlobKind && Nested(w, num).Some? && SameType(Nested(w, num).value, x)
    ensures SameType(w, r)
  {
    match w
    case MetadataW(d) => MetadataW(d.(confState := x.c))
    case SnapshotW(s) => SnapshotW(s.(metadata := x.d))
    case MessageW(m) =>
      MessageW(if num == 7 then m.(entries := m.entries + [x.e])
               else if num == 9 then m.(snapshot := Some(x.s))
               else m.(responses := m.responses + [x.m]))
    case ChangeV2W(c) => ChangeV2W(c.(changes := c.changes + [x.g]))
    case _ => w
  }

  function PutBytes(w: Wire, num: nat, data: seq<byte>): (r: Wire)
    requires KindOf(w, num) == BlobKind && Nested(w, num).None?
    ensures SameType(w, r)
  {
    match w
    case EntryW(e) => EntryW(e.(data := Some(data)))
    case SnapshotW(s) => SnapshotW(s.(data := Some(data)))
    case MessageW(m) => MessageW(m.(context := Some(data)))
    case ChangeW(h) => ChangeW(h.(context := Some(data)))
    case ChangeV2W(c) => ChangeV2W(c.(context := Some(data)))
    case _ => w
  }

  function Put(w: Wire, f: Field): (r: Result<Wire>)
    requires Knows(w, f)
    ensures r.Ok? ==> SameType(w, r.value)
    decreases if f.Blob? then |f.data| else 0, 2, 0
  {
    if f.Blob? then
      if Nested(w, f.num).None? then Ok(PutBytes(w, f.num, f.data))
      else
        match DecodeWire(f.data, 0, Nested(w, f.num).value)
        case Err(e) => Err(e)
        case Ok(x) => Ok(PutNested(w, f.num, x))
    else if KindOf(w, f.num) == NumberKind then Ok(PutNumber(w, f.num, f.v))
    else Ok(ConfStateW(PutNumbers(w.c, f.num, Listed(f))))
  }

  /** The loop of Unmarshal from index `at` on, with the fields read so far in `w`. */
  function DecodeWire(s: seq<byte>, at: nat, w: Wire): (r: Result<Wire>)
    requires at <= |s|
    ensures r.Ok? ==> SameType(w, r.value)
    decreases |s|, 1, |s| - at
  {
    if at >= |s| then Ok(w)
    else
      match NextField(w, s, at)
      case Err(e) => Err(e)
      case Ok(Read(None, next)) => DecodeWire(s, next, w)
      case Ok(Read(Some(f), next)) =>
        match Put(w, f)
        case Err(e) => Err(e)
        case Ok(w1) => DecodeWire(s, next, w1)
  }
}
