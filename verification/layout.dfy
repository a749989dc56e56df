/** The bytes themselves: which key stands before which field, on the way out and on the way in. */
module Layout {
  import opened RaftTypes
  import opened Varint
  import opened Wire
  import RoundTrip
  import WireCode
  import MessageLink

  // ---------------------------------------------------------------------
  // Numbers.

  /** What base-128 digits stand for, the lowest first. */
  ghost function Value(bytes: seq<byte>): nat {
    if bytes == [] then 0 else bytes[0] % 128 + 128 * Value(bytes[1..])
  }

  /** The digits of the number, the high bit set on all but the last, and no leading zero digit. */
  lemma {:induction false} VarintBytes(v: nat)
    ensures var s := Encode(v);
            && Value(s) == v && s != []
            && (forall k :: 0 <= k < |s| ==> (s[k] >= 128 <==> k < |s| - 1))
            && (|s| > 1 ==> s[|s| - 1] != 0)
  {
    if v >= 128 {
      VarintBytes(v / 128);
      var s, t := Encode(v), Encode(v / 128);
      assert s[1..] == t;
      assert forall k :: 1 <= k < |s| ==> s[k] == t[k - 1];
      assert |t| == 1 ==> t[0] == v / 128;
    } else {
      assert Encode(v)[1..] == [];
    }
  }

  /** The `n` bytes from `at` on are one number: the high bit on all but the last. */
  ghost predicate Digits(s: seq<byte>, at: nat, n: nat) {
    && 1 <= n && at + n <= |s| && s[at + n - 1] < 128
    && forall k :: at <= k < at + n - 1 ==> s[k] >= 128
  }

  lemma ModAdd(a: nat, b: nat)
    ensures (a % U64 + b) % U64 == (a + b) % U64
  {
  }

  lemma Distribute(d: nat, v: nat, p: nat)
    ensures (d + 128 * v) * p == d * p + v * (128 * p)
  {
  }

  lemma OneDigit(acc: nat, d: nat, v: nat, p: nat)
    ensures ((acc + d * p) % U64 + v * (128 * p)) % U64 == (acc + (d + 128 * v) * p) % U64
  {
    Distribute(d, v, p);
    ModAdd(acc + d * p, v * (128 * p));
  }

  lemma FirstDigit(s: seq<byte>, at: nat, n: nat)
    requires 1 <= n && at + n <= |s|
    ensures Value(s[at..at + n]) == s[at] % 128 + 128 * Value(s[at + 1..at + n])
    ensures n == 1 ==> Value(s[at + 1..at + n]) == 0
  {
    assert s[at..at + n][1..] == s[at + 1..at + n];
  }

  lemma OneTurnOfDecode(s: seq<byte>, at: nat, k: nat, acc: nat)
    requires at < |s| && acc < U64 && k < 10
    ensures var acc1 := (acc + s[at] % 128 * Pow128(k)) % U64;
            DecodeFrom(s, at, k, acc) == if s[at] < 128 then Ok(Read(acc1, at + 1)) else DecodeFrom(s, at + 1, k + 1, acc1)
    ensures Pow128(k + 1) == 128 * Pow128(k)
  {
  }

  lemma {:induction false} DigitsRead(s: seq<byte>, at: nat, k: nat, acc: nat, n: nat)
    requires Digits(s, at, n) && acc < U64 && k + n <= 10
    ensures DecodeFrom(s, at, k, acc) == Ok(Read((acc + Value(s[at..at + n]) * Pow128(k)) % U64, at + n))
    decreases n
  {
    hide DecodeFrom, Value, Pow128;
    var d, v, p := s[at] % 128, Value(s[at + 1..at + n]), Pow128(k);
    FirstDigit(s, at, n);
    OneTurnOfDecode(s, at, k, acc);
    OneDigit(acc, d, v, p);
    if n > 1 {
      DigitsRead(s, at + 1, k + 1, (acc + d * p) % U64, n - 1);
    }
  }

  lemma {:induction false} TooManyDigits(s: seq<byte>, at: nat, k: nat, acc: nat, n: nat)
    requires at + n <= |s| && acc < U64 && k + n >= 10 && forall j :: at <= j < at + n ==> s[j] >= 128
    requires k <= 10
    ensures DecodeFrom(s, at, k, acc) == Err(IntOverflow)
    decreases n
  {
    if k < 10 {
      TooManyDigits(s, at + 1, k + 1, (acc + s[at] % 128 * Pow128(k)) % U64, n - 1);
    }
  }

  lemma {:induction false} NoLastDigit(s: seq<byte>, at: nat, k: nat, acc: nat)
    requires at <= |s| && acc < U64 && k + (|s| - at) < 10 && forall j :: at <= j < |s| ==> s[j] >= 128
    ensures DecodeFrom(s, at, k, acc) == Err(UnexpectedEOF)
    decreases |s| - at
  {
    if at < |s| {
      NoLastDigit(s, at + 1, k + 1, (acc + s[at] % 128 * Pow128(k)) % U64);
    }
  }

  /** Any bytes at all: what number is read, cut to 64 bits, or which error it is. */
  lemma NumberIsRead(s: seq<byte>, at: nat, n: nat)
    requires at <= |s|
    ensures Digits(s, at, n) && n <= 10 ==> Decode(s, at) == Ok(Read(Value(s[at..at + n]) % U64, at + n))
    ensures Digits(s, at, n) && n > 10 ==> Decode(s, at) == Err(IntOverflow)
    ensures (forall k :: at <= k < |s| ==> s[k] >= 128) ==>
              Decode(s, at) == Err(if |s| - at >= 10 then IntOverflow else UnexpectedEOF)
  {
    hide Value;
    assert Pow128(0) == 1;
    if Digits(s, at, n) {
      if n <= 10 {
        DigitsRead(s, at, 0, 0, n);
      } else {
        TooManyDigits(s, at, 0, 0, n - 1);
      }
    }
    if forall k :: at <= k < |s| ==> s[k] >= 128 {
      if |s| - at >= 10 {
        TooManyDigits(s, at, 0, 0, |s| - at);
      } else {
        NoLastDigit(s, at, 0, 0);
      }
    }
  }

  // ---------------------------------------------------------------------
  // Fields, with their key byte.

  /** A number, and what follows it. */
  ghost function N(key: byte, v: nat, rest: seq<byte>): seq<byte> { [key] + Encode(v) + rest }

  /** A length-delimited field. */
  ghost function B(key: byte, data: seq<byte>, rest: seq<byte>): seq<byte> { [key] + Encode(|data|) + data + rest }

  ghost function Opt(key: byte, data: Option<seq<byte>>, rest: seq<byte>): seq<byte> {
    if data.None? then rest else B(key, data.value, rest)
  }

  ghost function EachN(key: byte, vs: seq<nat>, rest: seq<byte>): seq<byte> {
    if vs == [] then rest else N(key, vs[0], EachN(key, vs[1..], rest))
  }

  ghost function EachB(key: byte, blobs: seq<seq<byte>>, rest: seq<byte>): seq<byte> {
    if blobs == [] then rest else B(key, blobs[0], EachB(key, blobs[1..], rest))
  }

  /** An enumeration value, negative ones in two's complement. */
  ghost function Enum(x: int32): nat { if x < 0 then x + 0x1_0000_0000_0000_0000 else x }

  lemma NumberIs(num: nat, v: nat, rest: seq<Field>)
    requires 1 <= num <= 14
    ensures EncodeFields([Number(num, v)] + rest) == N(8 * num, v, EncodeFields(rest))
  {
    WireCode.NumberCons(num, v, rest);
  }

  lemma BlobIs(num: nat, data: seq<byte>, rest: seq<Field>)
    requires 1 <= num <= 14
    ensures EncodeFields([Blob(num, data)] + rest) == B(8 * num + 2, data, EncodeFields(rest))
  {
    WireCode.BlobCons(num, |data|, data, rest);
    Regroup([8 * num + 2], Encode(|data|), data, EncodeFields(rest));
  }

  lemma Regroup(k: seq<byte>, l: seq<byte>, data: seq<byte>, r: seq<byte>)
    ensures (k + l) + (data + r) == k + l + data + r
  {
  }

  lemma OptIs(num: nat, data: Option<seq<byte>>, rest: seq<Field>)
    requires 1 <= num <= 14
    ensures EncodeFields(OptThen(num, data, rest)) == Opt(8 * num + 2, data, EncodeFields(rest))
  {
    if data.Some? {
      BlobIs(num, data.value, rest);
    }
  }

  lemma {:induction false} RepeatedIs(num: nat, vs: seq<nat>, rest: seq<Field>)
    requires 1 <= num <= 14
    ensures EncodeFields(RepeatedThen(num, vs, rest)) == EachN(8 * num, vs, EncodeFields(rest))
  {
    if vs != [] {
      NumberIs(num, vs[0], RepeatedThen(num, vs[1..], rest));
      RepeatedIs(num, vs[1..], rest);
    }
  }

  // ---------------------------------------------------------------------
  // The nine types, written out.

  lemma EntryBytes(e: WireEntry)
    ensures EncodeEntry(e) == N(0x08, Enum(e.etype), N(0x10, e.term, N(0x18, e.index, Opt(0x22, e.data, []))))
  {
    hide EncodeFields;
    OptIs(4, e.data, []);
    Nothing();
    NumberIs(3, e.index, OptThen(4, e.data, []));
    NumberIs(2, e.term, [Number(3, e.index)] + OptThen(4, e.data, []));
    NumberIs(1, ToU64(e.etype), [Number(2, e.term)] + ([Number(3, e.index)] + OptThen(4, e.data, [])));
  }

  lemma Nothing()
    ensures EncodeFields([]) == []
  {
  }

  lemma ConfStateBytes(c: ConfState)
    ensures EncodeConfState(c)
            == EachN(0x08, c.voters, EachN(0x10, c.learners, EachN(0x18, c.votersOutgoing, EachN(0x20, c.learnersNext,
                 N(0x28, if c.autoLeave then 1 else 0, [])))))
  {
    hide EncodeFields;
    Nothing();
    NumberIs(5, Bool(c.autoLeave), []);
    var f5 := [Number(5, Bool(c.autoLeave))] + [];
    RepeatedIs(4, c.learnersNext, f5);
    var f4 := RepeatedThen(4, c.learnersNext, f5);
    RepeatedIs(3, c.votersOutgoing, f4);
    var f3 := RepeatedThen(3, c.votersOutgoing, f4);
    RepeatedIs(2, c.learners, f3);
    RepeatedIs(1, c.voters, RepeatedThen(2, c.learners, f3));
  }

  lemma MetadataBytes(d: SnapshotMetadata)
    ensures EncodeMetadata(d) == B(0x0a, EncodeConfState(d.confState), N(0x10, d.index, N(0x18, d.term, [])))
  {
    hide EncodeFields;
    Nothing();
    NumberIs(3, d.term, []);
    NumberIs(2, d.index, [Number(3, d.term)] + []);
    BlobIs(1, EncodeConfState(d.confState), [Number(2, d.index)] + ([Number(3, d.term)] + []));
  }

  lemma SnapshotBytes(s: Snapshot)
    ensures EncodeSnapshot(s) == Opt(0x0a, s.data, B(0x12, EncodeMetadata(s.metadata), []))
  {
    hide EncodeFields;
    Nothing();
    BlobIs(2, EncodeMetadata(s.metadata), []);
    OptIs(1, s.data, [Blob(2, EncodeMetadata(s.metadata))] + []);
  }

  lemma ChangeBytes(h: ConfChange)
    ensures EncodeChange(h) == N(0x08, h.id, N(0x10, Enum(h.ctype), N(0x18, h.nodeID, Opt(0x22, h.context, []))))
  {
    hide EncodeFields;
    OptIs(4, h.context, []);
    Nothing();
    NumberIs(3, h.nodeID, OptThen(4, h.context, []));
    NumberIs(2, ToU64(h.ctype), [Number(3, h.nodeID)] + OptThen(4, h.context, []));
    NumberIs(1, h.id, [Number(2, ToU64(h.ctype))] + ([Number(3, h.nodeID)] + OptThen(4, h.context, [])));
  }

  lemma SingleBytes(g: ConfChangeSingle)
    ensures EncodeSingle(g) == N(0x08, Enum(g.ctype), N(0x10, g.nodeID, []))
  {
    hide EncodeFields;
    Nothing();
    NumberIs(2, g.nodeID, []);
    NumberIs(1, ToU64(g.ctype), [Number(2, g.nodeID)] + []);
  }

  ghost function Singles(gs: seq<ConfChangeSingle>): seq<seq<byte>> {
    seq(|gs|, i requires 0 <= i < |gs| => EncodeSingle(gs[i]))
  }

  lemma {:induction false} SinglesBytes(gs: seq<ConfChangeSingle>, rest: seq<Field>)
    ensures EncodeFields(SinglesThen(gs, rest))
            == EachB(0x12, Singles(gs), EncodeFields(rest))
  {
    hide EncodeFields;
    if gs != [] {
      BlobIs(2, EncodeSingle(gs[0]), SinglesThen(gs[1..], rest));
      SinglesBytes(gs[1..], rest);
      assert Singles(gs)[1..] == Singles(gs[1..]);
    }
  }

  lemma ChangeV2Bytes(v: ConfChangeV2)
    ensures EncodeChangeV2(v)
            == N(0x08, Enum(v.transition),
                 EachB(0x12, Singles(v.changes), Opt(0x1a, v.context, [])))
  {
    hide EncodeFields;
    Nothing();
    OptIs(3, v.context, []);
    SinglesBytes(v.changes, OptThen(3, v.context, []));
    NumberIs(1, ToU64(v.transition), SinglesThen(v.changes, OptThen(3, v.context, [])));
  }

  lemma HardStateBytes(h: HardState)
    ensures EncodeHardState(h) == N(0x08, h.term, N(0x10, h.vote, N(0x18, h.commit, [])))
  {
    hide EncodeFields;
    Nothing();
    NumberIs(3, h.commit, []);
    NumberIs(2, h.vote, [Number(3, h.commit)] + []);
    NumberIs(1, h.term, [Number(2, h.vote)] + ([Number(3, h.commit)] + []));
  }

  ghost function Entries(es: seq<WireEntry>): seq<seq<byte>> { seq(|es|, i requires 0 <= i < |es| => EncodeEntry(es[i])) }

  ghost function Responses(ms: seq<WireMessage>): seq<seq<byte>> {
    seq(|ms|, i requires 0 <= i < |ms| => EncodeMessage(ms[i]))
  }

  lemma {:induction false} EntriesBytes(es: seq<WireEntry>, rest: seq<Field>)
    ensures EncodeFields(EntriesThen(es, rest)) == EachB(0x3a, Entries(es), EncodeFields(rest))
  {
    hide EncodeFields;
    if es != [] {
      BlobIs(7, EncodeEntry(es[0]), EntriesThen(es[1..], rest));
      EntriesBytes(es[1..], rest);
      assert Entries(es)[1..] == Entries(es[1..]);
    }
  }

  lemma {:induction false} ResponsesBytes(ms: seq<WireMessage>)
    ensures EncodeFields(ResponseFields(ms)) == EachB(0x72, Responses(ms), [])
  {
    hide EncodeMessage;
    if ms != [] {
      BlobIs(14, EncodeMessage(ms[0]), ResponseFields(ms[1..]));
      ResponsesBytes(ms[1..]);
      assert Responses(ms)[1..] == Responses(ms[1..]);
    }
  }

  lemma MiddleBytes(m: WireMessage, rest: seq<Field>)
    ensures EncodeFields(MiddleThen(m, rest))
            == N(0x40, m.commit,
                 Opt(0x4a, if m.snapshot.None? then None else Some(EncodeSnapshot(m.snapshot.value)),
                 N(0x50, if m.reject then 1 else 0, N(0x58, m.rejectHint, Opt(0x62, m.context, N(0x68, m.vote, EncodeFields(rest)))))))
  {
    hide EncodeFields, EncodeSnapshot;
    var f13 := [Number(13, m.vote)] + rest;
    NumberIs(13, m.vote, rest);
    var f12 := OptThen(12, m.context, f13);
    OptIs(12, m.context, f13);
    var f11 := [Number(11, m.rejectHint)] + f12;
    NumberIs(11, m.rejectHint, f12);
    var f10 := [Number(10, Bool(m.reject))] + f11;
    NumberIs(10, Bool(m.reject), f11);
    var f9 := SnapshotThen(m.snapshot, f10);
    if m.snapshot.Some? {
      BlobIs(9, EncodeSnapshot(m.snapshot.value), f10);
    }
    NumberIs(8, m.commit, f9);
    SameMiddle(m, rest, f9);
  }

  lemma SameMiddle(m: WireMessage, rest: seq<Field>, f9: seq<Field>)
    requires f9 == SnapshotThen(m.snapshot, [Number(10, Bool(m.reject))]
                     + ([Number(11, m.rejectHint)] + OptThen(12, m.context, [Number(13, m.vote)] + rest)))
    ensures MiddleThen(m, rest) == [Number(8, m.commit)] + f9
  {
    hide EncodeSnapshot;
  }

  lemma HeadBytes(m: WireMessage, rest: seq<Field>)
    ensures EncodeFields(HeadThen(m, rest))
            == N(0x08, Enum(m.mtype), N(0x10, m.to, N(0x18, m.from, N(0x20, m.term, N(0x28, m.logTerm,
                 N(0x30, m.index, EncodeFields(rest)))))))
  {
    hide EncodeFields;
    var f6 := [Number(6, m.index)] + rest;
    NumberIs(6, m.index, rest);
    var f5 := [Number(5, m.logTerm)] + f6;
    NumberIs(5, m.logTerm, f6);
    var f4 := [Number(4, m.term)] + f5;
    NumberIs(4, m.term, f5);
    var f3 := [Number(3, m.from)] + f4;
    NumberIs(3, m.from, f4);
    var f2 := [Number(2, m.to)] + f3;
    NumberIs(2, m.to, f3);
    NumberIs(1, ToU64(m.mtype), f2);
    assert HeadThen(m, rest) == [Number(1, ToU64(m.mtype))] + f2;
  }

  /** Every byte of a message. */
  lemma MessageBytes(m: WireMessage)
    ensures EncodeMessage(m)
            == N(0x08, Enum(m.mtype), N(0x10, m.to, N(0x18, m.from, N(0x20, m.term, N(0x28, m.logTerm, N(0x30, m.index,
                 EachB(0x3a, Entries(m.entries),
                 N(0x40, m.commit,
                 Opt(0x4a, if m.snapshot.None? then None else Some(EncodeSnapshot(m.snapshot.value)),
                 N(0x50, if m.reject then 1 else 0, N(0x58, m.rejectHint, Opt(0x62, m.context, N(0x68, m.vote,
                 EachB(0x72, Responses(m.responses), []))))))))))))))
  {
    hide EncodeFields, EncodeMessage, EncodeSnapshot, HeadThen, MiddleThen, EntriesThen;
    RoundTrip.EncodesFields(m);
    ResponsesBytes(m.responses);
    MiddleBytes(m, ResponseFields(m.responses));
    EntriesBytes(m.entries, MiddleThen(m, ResponseFields(m.responses)));
    HeadBytes(m, EntriesThen(m.entries, MiddleThen(m, ResponseFields(m.responses))));
  }

  /** The numbers of the message types. */
  ghost function TypeNumber(t: MessageType): nat {
    match t
    case MsgHup => 0
    case MsgBeat => 1
    case MsgProp => 2
    case MsgApp => 3
    case MsgAppResp => 4
    case MsgVote => 5
    case MsgVoteResp => 6
    case MsgSnap => 7
    case MsgHeartbeat => 8
    case MsgHeartbeatResp => 9
    case MsgCheckQuorum => 12
    case MsgPreVote => 17
    case MsgPreVoteResp => 18
  }

  ghost function ProtocolEntry(e: Entry): seq<byte> {
    N(0x08, match e.etype case EntryNormal => 0 case EntryConfChange => 1 case EntryConfChangeV2 => 2,
      N(0x10, e.term, N(0x18, e.index, Opt(0x22, e.data, []))))
  }

  ghost function ProtocolEntries(es: seq<Entry>): seq<seq<byte>> {
    seq(|es|, i requires 0 <= i < |es| => ProtocolEntry(es[i]))
  }

  /** Every byte of a message of the protocol. */
  lemma ProtocolBytes(m: Message)
    ensures EncodeMessage(MessageLink.ToWire(m))
            == N(0x08, TypeNumber(m.mtype), N(0x10, m.to, N(0x18, m.from, N(0x20, m.term, N(0x28, m.logTerm,
                 N(0x30, m.index, EachB(0x3a, ProtocolEntries(m.entries), N(0x40, m.commit,
                 N(0x50, if m.reject then 1 else 0, N(0x58, m.rejectHint, N(0x68, 0, [])))))))))))
  {
    hide EncodeMessage, N, EachB;
    var w := MessageLink.ToWire(m);
    MessageBytes(w);
    assert Responses(w.responses) == [];
    NoneOf(0x72);
    forall k | 0 <= k < |m.entries| ensures Entries(w.entries)[k] == ProtocolEntries(m.entries)[k] {
      EntryBytes(w.entries[k]);
    }
    assert Entries(w.entries) == ProtocolEntries(m.entries);
  }

  lemma NoneOf(key: byte)
    ensures EachB(key, [], []) == []
  {
  }

  // ---------------------------------------------------------------------
  // Skipping: what an unknown field of each wire type takes up.

  /** Fixed-size fields take eight and four bytes, a group ends with its closing key. */
  lemma FixedIsSkipped(s: seq<byte>, at: nat)
    requires at < |s| && s[at] < 128 && |s| + 8 < I63
    ensures s[at] % 8 == 1 ==> Skip(s, at) == if at + 9 <= |s| then Ok(Read(None, at + 9)) else Err(UnexpectedEOF)
    ensures s[at] % 8 == 5 ==> Skip(s, at) == if at + 5 <= |s| then Ok(Read(None, at + 5)) else Err(UnexpectedEOF)
    ensures s[at] % 8 == 3 && at + 1 < |s| && s[at + 1] < 128 && s[at + 1] % 8 == 4 ==> Skip(s, at) == Ok(Read(None, at + 2))
    ensures s[at] % 8 == 4 ==> Skip(s, at) == Err(UnexpectedEndOfGroup)
    ensures s[at] % 8 in {6, 7} ==> Skip(s, at) == Err(IllegalWireType)
  {
    hide Decode;
    var t := s[at..];
    assert t[0] == s[at];
    KeyByte(t, 0);
    if s[at] % 8 == 3 && at + 1 < |s| && s[at + 1] < 128 && s[at + 1] % 8 == 4 {
      assert t[1] == s[at + 1];
      KeyByte(t, 1);
      assert SkipFrom(t, 1, 1) == Ok(2);
    }
  }

  // ---------------------------------------------------------------------
  // Reading: what each key byte does to the message read so far.

  lemma KeyByte(s: seq<byte>, at: nat)
    requires at < |s| && s[at] < 128
    ensures Decode(s, at) == Ok(Read(s[at], at + 1))
  {
    assert Pow128(0) == 1;
  }

  /** One turn of the decoding loop that read field `f`. */
  lemma OneTurn(w: Wire, s: seq<byte>, at: nat, f: Field, next: nat)
    requires at < |s| && NextField(w, s, at) == Ok(Read(Some(f), next))
    ensures DecodeWire(s, at, w)
            == if Put(w, f).Err? then Err(Put(w, f).error) else DecodeWire(s, next, Put(w, f).value)
  {
    hide NextField, Put;
  }

  /** The key of a field with a number below 16. */
  lemma KeyIs(s: seq<byte>, at: nat, num: nat, wireType: nat)
    requires at < |s| && 1 <= num <= 14 && wireType < 8 && s[at] == 8 * num + wireType
    ensures Decode(s, at) == Ok(Read(s[at], at + 1)) && ToInt32(s[at] / 8) == num && s[at] % 8 == wireType
  {
    hide Decode;
    KeyByte(s, at);
  }

  lemma NumberGoesIn(w: Wire, s: seq<byte>, at: nat, num: nat, v: nat, next: nat)
    requires at < |s| && 1 <= num <= 14 && s[at] == 8 * num && KindOf(w, num) == NumberKind
    requires Decode(s, at + 1) == Ok(Read(v, next))
    ensures DecodeWire(s, at, w) == DecodeWire(s, next, PutNumber(w, num, v))
  {
    hide Decode, DecodeWire, PutNumber;
    KeyIs(s, at, num, 0);
    OneTurn(w, s, at, Number(num, v), next);
  }

  lemma BytesGoIn(w: Wire, s: seq<byte>, at: nat, num: nat, data: seq<byte>, next: nat)
    requires at < |s| && 1 <= num <= 14 && s[at] == 8 * num + 2 && KindOf(w, num) == BlobKind && Nested(w, num).None?
    requires ReadBytes(s, at + 1) == Ok(Read(data, next))
    ensures DecodeWire(s, at, w) == DecodeWire(s, next, PutBytes(w, num, data))
  {
    hide Decode, DecodeWire, PutBytes, ReadBytes;
    KeyIs(s, at, num, 2);
    OneTurn(w, s, at, Blob(num, data), next);
  }

  lemma NestedGoesIn(w: Wire, s: seq<byte>, at: nat, num: nat, data: seq<byte>, next: nat)
    requires at < |s| && 1 <= num <= 14 && s[at] == 8 * num + 2 && KindOf(w, num) == BlobKind && Nested(w, num).Some?
    requires ReadBytes(s, at + 1) == Ok(Read(data, next))
    ensures var x := DecodeWire(data, 0, Nested(w, num).value);
            DecodeWire(s, at, w)
            == if x.Err? then Err(x.error) else DecodeWire(s, next, PutNested(w, num, x.value))
  {
    hide Decode, DecodeWire, PutNested, ReadBytes;
    KeyIs(s, at, num, 2);
    OneTurn(w, s, at, Blob(num, data), next);
  }

  lemma NumbersGoIn(c: ConfState, s: seq<byte>, at: nat, num: nat)
    requires at < |s| && 1 <= num <= 4
    ensures s[at] == 8 * num && Decode(s, at + 1).Ok? ==>
              var r := Decode(s, at + 1).value;
              DecodeWire(s, at, ConfStateW(c)) == DecodeWire(s, r.next, ConfStateW(PutNumbers(c, num, [r.value])))
    ensures s[at] == 8 * num + 2 && ReadPacked(s, at + 1).Ok? ==>
              var r := ReadPacked(s, at + 1).value;
              DecodeWire(s, at, ConfStateW(c)) == DecodeWire(s, r.next, ConfStateW(PutNumbers(c, num, r.value)))
  {
    hide Decode, DecodeWire, PutNumbers, ReadPacked;
    if s[at] == 8 * num && Decode(s, at + 1).Ok? {
      var r := Decode(s, at + 1).value;
      KeyIs(s, at, num, 0);
      OneTurn(ConfStateW(c), s, at, Number(num, r.value), r.next);
    } else if s[at] == 8 * num + 2 && ReadPacked(s, at + 1).Ok? {
      var r := ReadPacked(s, at + 1).value;
      KeyIs(s, at, num, 2);
      OneTurn(ConfStateW(c), s, at, Numbers(num, r.value), r.next);
    }
  }

  /** The low 32 bits of a number as a signed one. */
  ghost function Low32(v: nat): int32 {
    if v % 0x1_0000_0000 < 0x8000_0000 then v % 0x1_0000_0000 else v % 0x1_0000_0000 - 0x1_0000_0000
  }

  /** Where the number behind a key byte of a message goes; nowhere behind any other. */
  ghost function SetNumber(m: WireMessage, key: byte, v: nat): Option<WireMessage> {
    if key == 0x08 then Some(m.(mtype := Low32(v)))
    else if key == 0x10 then Some(m.(to := v))
    else if key == 0x18 then Some(m.(from := v))
    else if key == 0x20 then Some(m.(term := v))
    else if key == 0x28 then Some(m.(logTerm := v))
    else if key == 0x30 then Some(m.(index := v))
    else if key == 0x40 then Some(m.(commit := v))
    else if key == 0x50 then Some(m.(reject := v != 0))
    else if key == 0x58 then Some(m.(rejectHint := v))
    else if key == 0x68 then Some(m.(vote := v))
    else None
  }

  lemma MessageNumbers(m: WireMessage, s: seq<byte>, at: nat)
    requires at < |s| && Decode(s, at + 1).Ok? && SetNumber(m, s[at], Decode(s, at + 1).value.value).Some?
    ensures var r := Decode(s, at + 1).value;
            DecodeWire(s, at, MessageW(m)) == DecodeWire(s, r.next, MessageW(SetNumber(m, s[at], r.value).value))
  {
    hide Decode, DecodeWire;
    var r := Decode(s, at + 1).value;
    NumberGoesIn(MessageW(m), s, at, s[at] / 8, r.value, r.next);
  }

  /** What the length-delimited fields of a message do; a nested message that does not decode is an error. */
  lemma MessageBlobs(m: WireMessage, s: seq<byte>, at: nat)
    requires at < |s| && ReadBytes(s, at + 1).Ok?
    ensures var r := ReadBytes(s, at + 1).value;
            && (s[at] == 0x3a ==>
                  var x := DecodeWire(r.value, 0, EntryW(NO_ENTRY));
                  DecodeWire(s, at, MessageW(m)) ==
                    if x.Err? then Err(x.error) else DecodeWire(s, r.next, MessageW(m.(entries := m.entries + [x.value.e]))))
            && (s[at] == 0x4a ==>
                  var x := DecodeWire(r.value, 0, SnapshotW(if m.snapshot.None? then NO_SNAPSHOT else m.snapshot.value));
                  DecodeWire(s, at, MessageW(m)) ==
                    if x.Err? then Err(x.error) else DecodeWire(s, r.next, MessageW(m.(snapshot := Some(x.value.s)))))
            && (s[at] == 0x62 ==>
                  DecodeWire(s, at, MessageW(m)) == DecodeWire(s, r.next, MessageW(m.(context := Some(r.value)))))
            && (s[at] == 0x72 ==>
                  var x := DecodeWire(r.value, 0, MessageW(NO_MESSAGE));
                  DecodeWire(s, at, MessageW(m)) ==
                    if x.Err? then Err(x.error) else DecodeWire(s, r.next, MessageW(m.(responses := m.responses + [x.value.m]))))
  {
    hide ReadBytes, DecodeWire;
    var (w, r) := (MessageW(m), ReadBytes(s, at + 1).value);
    if s[at] == 0x3a {
      NestedGoesIn(w, s, at, 7, r.value, r.next);
    } else if s[at] == 0x4a {
      NestedGoesIn(w, s, at, 9, r.value, r.next);
    } else if s[at] == 0x62 {
      BytesGoIn(w, s, at, 12, r.value, r.next);
    } else if s[at] == 0x72 {
      NestedGoesIn(w, s, at, 14, r.value, r.next);
    }
  }

  lemma EntryReads(e: WireEntry, s: seq<byte>, at: nat)
    requires at < |s|
    ensures Decode(s, at + 1).Ok? ==>
              var r := Decode(s, at + 1).value;
              && (s[at] == 0x08 ==> DecodeWire(s, at, EntryW(e)) == DecodeWire(s, r.next, EntryW(e.(etype := Low32(r.value)))))
              && (s[at] == 0x10 ==> DecodeWire(s, at, EntryW(e)) == DecodeWire(s, r.next, EntryW(e.(term := r.value))))
              && (s[at] == 0x18 ==> DecodeWire(s, at, EntryW(e)) == DecodeWire(s, r.next, EntryW(e.(index := r.value))))
    ensures s[at] == 0x22 && ReadBytes(s, at + 1).Ok? ==>
              var r := ReadBytes(s, at + 1).value;
              DecodeWire(s, at, EntryW(e)) == DecodeWire(s, r.next, EntryW(e.(data := Some(r.value))))
  {
    hide Decode, DecodeWire, ReadBytes;
    if Decode(s, at + 1).Ok? && s[at] in {0x08, 0x10, 0x18} {
      NumberGoesIn(EntryW(e), s, at, s[at] / 8, Decode(s, at + 1).value.value, Decode(s, at + 1).value.next);
    }
    if s[at] == 0x22 && ReadBytes(s, at + 1).Ok? {
      BytesGoIn(EntryW(e), s, at, 4, ReadBytes(s, at + 1).value.value, ReadBytes(s, at + 1).value.next);
    }
  }

  lemma ChangeReads(h: ConfChange, s: seq<byte>, at: nat)
    requires at < |s|
    ensures Decode(s, at + 1).Ok? ==>
              var r := Decode(s, at + 1).value;
              && (s[at] == 0x08 ==> DecodeWire(s, at, ChangeW(h)) == DecodeWire(s, r.next, ChangeW(h.(id := r.value))))
              && (s[at] == 0x10 ==> DecodeWire(s, at, ChangeW(h)) == DecodeWire(s, r.next, ChangeW(h.(ctype := Low32(r.value)))))
              && (s[at] == 0x18 ==> DecodeWire(s, at, ChangeW(h)) == DecodeWire(s, r.next, ChangeW(h.(nodeID := r.value))))
    ensures s[at] == 0x22 && ReadBytes(s, at + 1).Ok? ==>
              var r := ReadBytes(s, at + 1).value;
              DecodeWire(s, at, ChangeW(h)) == DecodeWire(s, r.next, ChangeW(h.(context := Some(r.value))))
  {
    hide Decode, DecodeWire, ReadBytes;
    if Decode(s, at + 1).Ok? && s[at] in {0x08, 0x10, 0x18} {
      NumberGoesIn(ChangeW(h), s, at, s[at] / 8, Decode(s, at + 1).value.value, Decode(s, at + 1).value.next);
    }
    if s[at] == 0x22 && ReadBytes(s, at + 1).Ok? {
      BytesGoIn(ChangeW(h), s, at, 4, ReadBytes(s, at + 1).value.value, ReadBytes(s, at + 1).value.next);
    }
  }

  lemma SingleReads(g: ConfChangeSingle, s: seq<byte>, at: nat)
    requires at < |s| && Decode(s, at + 1).Ok?
    ensures var r := Decode(s, at + 1).value;
            && (s[at] == 0x08 ==> DecodeWire(s, at, SingleW(g)) == DecodeWire(s, r.next, SingleW(g.(ctype := Low32(r.value)))))
            && (s[at] == 0x10 ==> DecodeWire(s, at, SingleW(g)) == DecodeWire(s, r.next, SingleW(g.(nodeID := r.value))))
  {
    hide Decode, DecodeWire;
    var r := Decode(s, at + 1).value;
    if s[at] in {0x08, 0x10} {
      NumberGoesIn(SingleW(g), s, at, s[at] / 8, r.value, r.next);
    }
  }

  lemma HardStateReads(h: HardState, s: seq<byte>, at: nat)
    requires at < |s| && Decode(s, at + 1).Ok?
    ensures var r := Decode(s, at + 1).value;
            && (s[at] == 0x08 ==> DecodeWire(s, at, HardStateW(h)) == DecodeWire(s, r.next, HardStateW(h.(term := r.value))))
            && (s[at] == 0x10 ==> DecodeWire(s, at, HardStateW(h)) == DecodeWire(s, r.next, HardStateW(h.(vote := r.value))))
            && (s[at] == 0x18 ==> DecodeWire(s, at, HardStateW(h)) == DecodeWire(s, r.next, HardStateW(h.(commit := r.value))))
  {
    hide Decode, DecodeWire;
    var r := Decode(s, at + 1).value;
    if s[at] in {0x08, 0x10, 0x18} {
      NumberGoesIn(HardStateW(h), s, at, s[at] / 8, r.value, r.next);
    }
  }

  lemma ChangeV2Reads(v: ConfChangeV2, s: seq<byte>, at: nat)
    requires at < |s|
    ensures s[at] == 0x08 && Decode(s, at + 1).Ok? ==>
              var r := Decode(s, at + 1).value;
              DecodeWire(s, at, ChangeV2W(v)) == DecodeWire(s, r.next, ChangeV2W(v.(transition := Low32(r.value))))
    ensures s[at] == 0x12 && ReadBytes(s, at + 1).Ok? ==>
              var r := ReadBytes(s, at + 1).value;
              var x := DecodeWire(r.value, 0, SingleW(NO_SINGLE));
              DecodeWire(s, at, ChangeV2W(v)) ==
                if x.Err? then Err(x.error) else DecodeWire(s, r.next, ChangeV2W(v.(changes := v.changes + [x.value.g])))
    ensures s[at] == 0x1a && ReadBytes(s, at + 1).Ok? ==>
              var r := ReadBytes(s, at + 1).value;
              DecodeWire(s, at, ChangeV2W(v)) == DecodeWire(s, r.next, ChangeV2W(v.(context := Some(r.value))))
  {
    hide Decode, DecodeWire, ReadBytes;
    if s[at] == 0x08 && Decode(s, at + 1).Ok? {
      NumberGoesIn(ChangeV2W(v), s, at, 1, Decode(s, at + 1).value.value, Decode(s, at + 1).value.next);
    } else if s[at] == 0x12 && ReadBytes(s, at + 1).Ok? {
      NestedGoesIn(ChangeV2W(v), s, at, 2, ReadBytes(s, at + 1).value.value, ReadBytes(s, at + 1).value.next);
    } else if s[at] == 0x1a && ReadBytes(s, at + 1).Ok? {
      BytesGoIn(ChangeV2W(v), s, at, 3, ReadBytes(s, at + 1).value.value, ReadBytes(s, at + 1).value.next);
    }
  }

  lemma SnapshotReads(p: Snapshot, s: seq<byte>, at: nat)
    requires at < |s| && ReadBytes(s, at + 1).Ok?
    ensures var r := ReadBytes(s, at + 1).value;
            && (s[at] == 0x0a ==>
                  DecodeWire(s, at, SnapshotW(p)) == DecodeWire(s, r.next, SnapshotW(p.(data := Some(r.value)))))
            && (s[at] == 0x12 ==>
                  var x := DecodeWire(r.value, 0, MetadataW(p.metadata));
                  DecodeWire(s, at, SnapshotW(p)) ==
                    if x.Err? then Err(x.error) else DecodeWire(s, r.next, SnapshotW(p.(metadata := x.value.d))))
  {
    hide DecodeWire, ReadBytes;
    var r := ReadBytes(s, at + 1).value;
    if s[at] == 0x0a {
      BytesGoIn(SnapshotW(p), s, at, 1, r.value, r.next);
    } else if s[at] == 0x12 {
      NestedGoesIn(SnapshotW(p), s, at, 2, r.value, r.next);
    }
  }

  lemma MetadataReads(d: SnapshotMetadata, s: seq<byte>, at: nat)
    requires at < |s|
    ensures s[at] == 0x0a && ReadBytes(s, at + 1).Ok? ==>
              var r := ReadBytes(s, at + 1).value;
              var x := DecodeWire(r.value, 0, ConfStateW(d.confState));
              DecodeWire(s, at, MetadataW(d)) ==
                if x.Err? then Err(x.error) else DecodeWire(s, r.next, MetadataW(d.(confState := x.value.c)))
    ensures Decode(s, at + 1).Ok? ==>
              var r := Decode(s, at + 1).value;
              && (s[at] == 0x10 ==> DecodeWire(s, at, MetadataW(d)) == DecodeWire(s, r.next, MetadataW(d.(index := r.value))))
              && (s[at] == 0x18 ==> DecodeWire(s, at, MetadataW(d)) == DecodeWire(s, r.next, MetadataW(d.(term := r.value))))
  {
    hide Decode, DecodeWire, ReadBytes;
    if s[at] == 0x0a && ReadBytes(s, at + 1).Ok? {
      NestedGoesIn(MetadataW(d), s, at, 1, ReadBytes(s, at + 1).value.value, ReadBytes(s, at + 1).value.next);
    }
    if Decode(s, at + 1).Ok? && s[at] in {0x10, 0x18} {
      NumberGoesIn(MetadataW(d), s, at, s[at] / 8, Decode(s, at + 1).value.value, Decode(s, at + 1).value.next);
    }
  }

  /** The lists of a configuration state come one number a field, or packed. */
  lemma ConfStateReads(c: ConfState, s: seq<byte>, at: nat)
    requires at < |s|
    ensures Decode(s, at + 1).Ok? ==>
              var r := Decode(s, at + 1).value;
              && (s[at] == 0x08 ==> DecodeWire(s, at, ConfStateW(c)) == DecodeWire(s, r.next, ConfStateW(c.(voters := c.voters + [r.value]))))
              && (s[at] == 0x10 ==> DecodeWire(s, at, ConfStateW(c)) == DecodeWire(s, r.next, ConfStateW(c.(learners := c.learners + [r.value]))))
              && (s[at] == 0x18 ==> DecodeWire(s, at, ConfStateW(c)) == DecodeWire(s, r.next, ConfStateW(c.(votersOutgoing := c.votersOutgoing + [r.value]))))
              && (s[at] == 0x20 ==> DecodeWire(s, at, ConfStateW(c)) == DecodeWire(s, r.next, ConfStateW(c.(learnersNext := c.learnersNext + [r.value]))))
              && (s[at] == 0x28 ==> DecodeWire(s, at, ConfStateW(c)) == DecodeWire(s, r.next, ConfStateW(c.(autoLeave := r.value != 0))))
    ensures ReadPacked(s, at + 1).Ok? ==>
              var r := ReadPacked(s, at + 1).value;
              && (s[at] == 0x0a ==> DecodeWire(s, at, ConfStateW(c)) == DecodeWire(s, r.next, ConfStateW(c.(voters := c.voters + r.value))))
              && (s[at] == 0x12 ==> DecodeWire(s, at, ConfStateW(c)) == DecodeWire(s, r.next, ConfStateW(c.(learners := c.learners + r.value))))
              && (s[at] == 0x1a ==> DecodeWire(s, at, ConfStateW(c)) == DecodeWire(s, r.next, ConfStateW(c.(votersOutgoing := c.votersOutgoing + r.value))))
              && (s[at] == 0x22 ==> DecodeWire(s, at, ConfStateW(c)) == DecodeWire(s, r.next, ConfStateW(c.(learnersNext := c.learnersNext + r.value))))
  {
    hide Decode, DecodeWire, ReadPacked;
    NumbersGoIn(c, s, at, 1);
    NumbersGoIn(c, s, at, 2);
    NumbersGoIn(c, s, at, 3);
    NumbersGoIn(c, s, at, 4);
    if s[at] == 0x28 && Decode(s, at + 1).Ok? {
      NumberGoesIn(ConfStateW(c), s, at, 5, Decode(s, at + 1).value.value, Decode(s, at + 1).value.next);
    }
  }
}
