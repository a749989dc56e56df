/** Whatever the codec writes it reads back, in sizes known beforehand. */
module RoundTrip {
  import opened RaftTypes
  import opened Varint
  import opened Wire

  // ---------------------------------------------------------------------
  // One field.

  lemma StandsSplit(s: seq<byte>, at: nat, a: seq<byte>, b: seq<byte>)
    requires StandsAt(s, at, a + b)
    ensures StandsAt(s, at, a) && StandsAt(s, at + |a|, b)
  {
    var w := a + b;
    forall k | 0 <= k < |a| ensures s[at + k] == a[k] {
      assert w[k] == a[k];
    }
    forall k | 0 <= k < |b| ensures s[at + |a| + k] == b[k] {
      assert w[|a| + k] == b[k];
    }
  }

  ghost predicate NumOk(num: nat) { 1 <= num < 0x1000_0000 }

  /** The key of a field, read back. */
  lemma KeyReads(s: seq<byte>, at: nat, num: nat, wireType: nat, rest: seq<byte>)
    requires NumOk(num) && (wireType == 0 || wireType == 2)
    requires StandsAt(s, at, Encode(Key(num, wireType)) + rest)
    ensures var next := at + Sov(Key(num, wireType));
            && at <= |s| && Decode(s, at) == Ok(Read(Key(num, wireType), next)) && StandsAt(s, next, rest)
    ensures ToInt32(Key(num, wireType) / 8) == num && Key(num, wireType) % 8 == wireType
  {
    StandsSplit(s, at, Encode(Key(num, wireType)), rest);
    DecodesBack(s, at, Key(num, wireType));
  }

  ghost predicate FieldOk(f: Field) {
    && NumOk(f.num)
    && match f
       case Number(_, v) => v < U64
       case Numbers(_, vs) => forall k :: 0 <= k < |vs| ==> vs[k] < U64
       case Blob(_, _) => true
  }

  lemma BytesTaken(s: seq<byte>, next: nat, data: seq<byte>)
    requires |s| < I63 && StandsAt(s, next, data)
    ensures TakeBytes(s, Ok(Read(|data|, next))) == Ok(Read(data, next + |data|))
  {
    assert s[next..next + |data|] == data;
  }

  /** A length, read back. */
  lemma LengthReads(s: seq<byte>, at: nat, n: nat, data: seq<byte>)
    requires n < U64 && StandsAt(s, at, Encode(n) + data)
    ensures at <= |s| && Decode(s, at) == Ok(Read(n, at + Sov(n))) && StandsAt(s, at + Sov(n), data)
  {
    StandsSplit(s, at, Encode(n), data);
    DecodesBack(s, at, n);
  }

  lemma BytesAfter(s: seq<byte>, at: nat, n: nat, data: seq<byte>)
    requires |s| < I63 && n == |data| && at <= |s|
    requires Decode(s, at) == Ok(Read(n, at + Sov(n))) && StandsAt(s, at + Sov(n), data)
    ensures ReadBytes(s, at) == Ok(Read(data, at + Sov(n) + n))
  {
    BytesTaken(s, at + Sov(n), data);
  }

  lemma BytesRead(s: seq<byte>, at: nat, n: nat, data: seq<byte>)
    requires |s| < I63 && n == |data| && StandsAt(s, at, Encode(n) + data)
    ensures at <= |s| && ReadBytes(s, at) == Ok(Read(data, at + Sov(n) + n))
  {
    LengthReads(s, at, n, data);
    BytesAfter(s, at, n, data);
  }

  lemma {:induction false} NumbersRead(s: seq<byte>, at: nat, vs: seq<nat>)
    requires StandsAt(s, at, EncodeNumbers(vs)) && forall k :: 0 <= k < |vs| ==> vs[k] < U64
    ensures var post := at + |EncodeNumbers(vs)|;
            post <= |s| && ReadNumbers(s, at, post) == Ok(Read(vs, post))
    decreases |vs|
  {
    if vs != [] {
      StandsSplit(s, at, Encode(vs[0]), EncodeNumbers(vs[1..]));
      DecodesBack(s, at, vs[0]);
      NumbersRead(s, at + Sov(vs[0]), vs[1..]);
      assert [vs[0]] + vs[1..] == vs;
    }
  }

  lemma NumberFieldReads(w: Wire, s: seq<byte>, at: nat, num: nat, v: nat)
    requires FieldOk(Number(num, v)) && Knows(w, Number(num, v)) && StandsAt(s, at, EncodeField(Number(num, v)))
    ensures at < |s| && NextField(w, s, at) == Ok(Read(Some(Number(num, v)), at + |EncodeField(Number(num, v))|))
  {
    KeyReads(s, at, num, 0, Encode(v));
    DecodesBack(s, at + Sov(Key(num, 0)), v);
  }

  lemma BlobFieldReads(w: Wire, s: seq<byte>, at: nat, num: nat, n: nat, data: seq<byte>)
    requires |s| < I63 && NumOk(num) && n == |data| && KindOf(w, num) == BlobKind
    requires StandsAt(s, at, Encode(Key(num, 2)) + (Encode(n) + data))
    ensures at < |s| && NextField(w, s, at) == Ok(Read(Some(Blob(num, data)), at + Sov(Key(num, 2)) + Sov(n) + n))
  {
    KeyReads(s, at, num, 2, Encode(n) + data);
    BytesRead(s, at + Sov(Key(num, 2)), n, data);
  }

  lemma PackedReads(s: seq<byte>, at: nat, n: nat, vs: seq<nat>)
    requires |s| < I63 && (forall k :: 0 <= k < |vs| ==> vs[k] < U64)
    requires n == |EncodeNumbers(vs)| && StandsAt(s, at, Encode(n) + EncodeNumbers(vs))
    ensures at <= |s| && ReadPacked(s, at) == Ok(Read(vs, at + Sov(n) + n))
  {
    hide Decode;
    BytesRead(s, at, n, EncodeNumbers(vs));
    StandsSplit(s, at, Encode(n), EncodeNumbers(vs));
    NumbersRead(s, at + Sov(n), vs);
  }

  lemma NumbersFieldReads(w: Wire, s: seq<byte>, at: nat, num: nat, n: nat, vs: seq<nat>)
    requires |s| < I63 && NumOk(num) && (forall k :: 0 <= k < |vs| ==> vs[k] < U64) && KindOf(w, num) == NumbersKind
    requires n == |EncodeNumbers(vs)| && StandsAt(s, at, Encode(Key(num, 2)) + (Encode(n) + EncodeNumbers(vs)))
    ensures at < |s| && NextField(w, s, at) == Ok(Read(Some(Numbers(num, vs)), at + Sov(Key(num, 2)) + Sov(n) + n))
  {
    hide Decode, ReadPacked, ToInt32;
    KeyReads(s, at, num, 2, Encode(n) + EncodeNumbers(vs));
    PackedReads(s, at + Sov(Key(num, 2)), n, vs);
  }

  lemma BlobReads(w: Wire, s: seq<byte>, at: nat, f: Field)
    requires |s| < I63 && f.Blob? && NumOk(f.num) && KindOf(w, f.num) == BlobKind && StandsAt(s, at, EncodeField(f))
    ensures at < |s| && NextField(w, s, at) == Ok(Read(Some(f), at + |EncodeField(f)|))
  {
    BlobFieldReads(w, s, at, f.num, |f.data|, f.data);
  }

  lemma NumbersReads(w: Wire, s: seq<byte>, at: nat, f: Field)
    requires |s| < I63 && f.Numbers? && FieldOk(f) && KindOf(w, f.num) == NumbersKind && StandsAt(s, at, EncodeField(f))
    ensures at < |s| && NextField(w, s, at) == Ok(Read(Some(f), at + |EncodeField(f)|))
  {
    NumbersFieldReads(w, s, at, f.num, |EncodeNumbers(f.vs)|, f.vs);
  }

  /** A known field is read back as it was written, alone or packed. */
  lemma FieldReads(w: Wire, s: seq<byte>, at: nat, f: Field)
    requires |s| < I63 && FieldOk(f) && Knows(w, f) && StandsAt(s, at, EncodeField(f))
    ensures at < |s| && NextField(w, s, at) == Ok(Read(Some(f), at + |EncodeField(f)|))
  {
    if f.Number? {
      NumberFieldReads(w, s, at, f.num, f.v);
    } else if f.Blob? {
      BlobReads(w, s, at, f);
    } else {
      NumbersReads(w, s, at, f);
    }
  }

  lemma StandsInTail(s: seq<byte>, at: nat, bytes: seq<byte>)
    requires StandsAt(s, at, bytes)
    ensures at <= |s| && StandsAt(s[at..], 0, bytes)
  {
  }

  lemma BlobSkips(t: seq<byte>, at: nat, n: nat, data: seq<byte>)
    requires |t| < I63 && n == |data| && StandsAt(t, at, Encode(n) + data)
    ensures at <= |t| && SkipPayload(t, at, 2) == Ok(at + Sov(n) + n)
  {
    LengthReads(t, at, n, data);
  }

  lemma SkipOne(t: seq<byte>, wire: nat, next: nat, end: nat)
    requires t != [] && next <= |t| && Decode(t, 0) == Ok(Read(wire, next))
    requires (wire % 8 == 0 || wire % 8 == 2) && SkipPayload(t, next, wire % 8) == Ok(end)
    ensures SkipFrom(t, 0, 0) == Ok(end)
  {
  }

  lemma PayloadSkips(t: seq<byte>, at: nat, v: nat)
    requires v < U64 && StandsAt(t, at, Encode(v))
    ensures at <= |t| && SkipPayload(t, at, 0) == Ok(at + Sov(v))
  {
    DecodesBack(t, at, v);
  }

  /** A key of wire type 0 or 2, then a payload that is skipped. */
  lemma KeySkipsOne(t: seq<byte>, num: nat, wireType: nat, key: seq<byte>, rest: seq<byte>, end: nat)
    requires NumOk(num) && (wireType == 0 || wireType == 2) && key == Encode(Key(num, wireType))
    requires StandsAt(t, 0, key + rest) && SkipPayload(t, |key|, wireType) == Ok(end)
    ensures SkipFrom(t, 0, 0) == Ok(end)
  {
    KeyReads(t, 0, num, wireType, rest);
    SkipOne(t, Key(num, wireType), |key|, end);
  }

  lemma NumberSkips(t: seq<byte>, num: nat, v: nat, key: seq<byte>, rest: seq<byte>)
    requires NumOk(num) && v < U64 && key == Encode(Key(num, 0)) && rest == Encode(v)
    requires StandsAt(t, 0, key + rest)
    ensures SkipFrom(t, 0, 0) == Ok(|key| + |rest|)
  {
    StandsSplit(t, 0, key, rest);
    PayloadSkips(t, |key|, v);
    KeySkipsOne(t, num, 0, key, rest, |key| + |rest|);
  }

  lemma WholeBlobSkips(t: seq<byte>, num: nat, n: nat, data: seq<byte>, key: seq<byte>, rest: seq<byte>)
    requires |t| < I63 && NumOk(num) && n == |data| && key == Encode(Key(num, 2)) && rest == Encode(n) + data
    requires StandsAt(t, 0, key + rest)
    ensures SkipFrom(t, 0, 0) == Ok(|key| + |rest|)
  {
    StandsSplit(t, 0, key, rest);
    BlobSkips(t, |key|, n, data);
    KeySkipsOne(t, num, 2, key, rest, |key| + |rest|);
  }

  lemma KeySkips(w: Wire, s: seq<byte>, at: nat, num: nat, wireType: nat, rest: seq<byte>, n: nat)
    requires |s| < I63 && NumOk(num) && (wireType == 0 || wireType == 2) && KindOf(w, num) == UnknownKind
    requires StandsAt(s, at, Encode(Key(num, wireType)) + rest)
    requires at <= |s| && SkipFrom(s[at..], 0, 0) == Ok(n) && at + n <= |s|
    ensures at < |s| && NextField(w, s, at) == Ok(Read(None, at + n))
  {
    KeyReads(s, at, num, wireType, rest);
  }

  /** A field that this version does not know is passed over whole. */
  lemma UnknownSkips(w: Wire, s: seq<byte>, at: nat, f: Field)
    requires |s| < I63 && FieldOk(f) && !f.Numbers? && KindOf(w, f.num) == UnknownKind
    requires StandsAt(s, at, EncodeField(f))
    ensures at < |s| && NextField(w, s, at) == Ok(Read(None, at + |EncodeField(f)|))
  {
    StandsInTail(s, at, EncodeField(f));
    if f.Number? {
      NumberSkips(s[at..], f.num, f.v, Encode(Key(f.num, 0)), Encode(f.v));
      KeySkips(w, s, at, f.num, 0, Encode(f.v), |EncodeField(f)|);
    } else {
      WholeBlobSkips(s[at..], f.num, |f.data|, f.data, Encode(Key(f.num, 2)), Encode(|f.data|) + f.data);
      KeySkips(w, s, at, f.num, 2, Encode(|f.data|) + f.data, |EncodeField(f)|);
    }
  }

  // ---------------------------------------------------------------------
  // All fields.

  /** Known fields are put in order, unknown ones passed over. */
  function PutAll(w: Wire, fs: seq<Field>): (r: Result<Wire>)
    ensures r.Ok? ==> SameType(w, r.value)
    decreases |fs|
  {
    if fs == [] then Ok(w)
    else if !Knows(w, fs[0]) then PutAll(w, fs[1..])
    else
      match Put(w, fs[0])
      case Err(e) => Err(e)
      case Ok(w1) => PutAll(w1, fs[1..])
  }

  /** Every field is either known with the right kind, or quite unknown. */
  ghost predicate Readable(w: Wire, f: Field) {
    FieldOk(f) && (Knows(w, f) || (KindOf(w, f.num) == UnknownKind && !f.Numbers?))
  }

  ghost predicate AllReadable(w: Wire, fs: seq<Field>) {
    fs == [] || (Readable(w, fs[0]) && AllReadable(w, fs[1..]))
  }

  lemma {:induction false} ReadableAlike(w: Wire, w1: Wire, fs: seq<Field>)
    requires AllReadable(w, fs) && SameType(w, w1)
    ensures AllReadable(w1, fs)
  {
    if fs != [] {
      ReadableAlike(w, w1, fs[1..]);
    }
  }

  lemma LoopPuts(s: seq<byte>, at: nat, w: Wire, f: Field, next: nat)
    requires at < next <= |s| && NextField(w, s, at) == Ok(Read(Some(f), next)) && Knows(w, f)
    ensures Put(w, f).Err? ==> DecodeWire(s, at, w) == Err(Put(w, f).error)
    ensures Put(w, f).Ok? ==> DecodeWire(s, at, w) == DecodeWire(s, next, Put(w, f).value)
  {
  }

  lemma LoopPasses(s: seq<byte>, at: nat, w: Wire, next: nat)
    requires at < next <= |s| && NextField(w, s, at) == Ok(Read(None, next))
    ensures DecodeWire(s, at, w) == DecodeWire(s, next, w)
  {
  }

  lemma SplitAt(s: seq<byte>, at: nat, a: seq<byte>, b: seq<byte>, all: seq<byte>) returns (next: nat)
    requires all == a + b && StandsAt(s, at, all)
    ensures StandsAt(s, at, a) && StandsAt(s, next, b)
    ensures at <= |s| && next == at + |a| && next + |b| == at + |all|
  {
    next := at + |a|;
    StandsSplit(s, at, a, b);
  }

  lemma FieldsSplit(s: seq<byte>, at: nat, fs: seq<Field>) returns (next: nat)
    requires fs != [] && StandsAt(s, at, EncodeFields(fs))
    ensures StandsAt(s, at, EncodeField(fs[0])) && next == at + |EncodeField(fs[0])|
    ensures StandsAt(s, next, EncodeFields(fs[1..]))
    ensures at <= |s| && next + |EncodeFields(fs[1..])| == at + |EncodeFields(fs)|
  {
    next := SplitAt(s, at, EncodeField(fs[0]), EncodeFields(fs[1..]), EncodeFields(fs));
  }

  /** The decoding loop puts exactly the fields that were encoded. */
  lemma {:induction false} LoopReads(s: seq<byte>, at: nat, w: Wire, fs: seq<Field>)
    requires |s| < I63 && AllReadable(w, fs)
    requires StandsAt(s, at, EncodeFields(fs)) && at + |EncodeFields(fs)| == |s|
    ensures DecodeWire(s, at, w) == PutAll(w, fs)
    decreases |fs|
  {
    if fs != [] {
      var next := FieldsSplit(s, at, fs);
      FirstReads(s, at, w, fs, fs[0], next);
    }
  }

  lemma {:induction false} FirstReads(s: seq<byte>, at: nat, w: Wire, fs: seq<Field>, f: Field, next: nat)
    requires |s| < I63 && AllReadable(w, fs) && fs != [] && f == fs[0] && Readable(w, f) && AllReadable(w, fs[1..])
    requires StandsAt(s, at, EncodeField(f)) && next == at + |EncodeField(f)| && StandsAt(s, next, EncodeFields(fs[1..]))
    requires next + |EncodeFields(fs[1..])| == |s| && at <= |s|
    ensures DecodeWire(s, at, w) == PutAll(w, fs)
    decreases |fs|, 0
  {
    if Knows(w, f) {
      FieldReads(w, s, at, f);
      LoopPuts(s, at, w, f, next);
      var r := Put(w, f);
      if r.Ok? {
        ReadableAlike(w, r.value, fs[1..]);
        LoopReads(s, next, r.value, fs[1..]);
      }
    } else {
      UnknownSkips(w, s, at, f);
      LoopPasses(s, at, w, next);
      LoopReads(s, next, w, fs[1..]);
    }
  }

  /** Decoding the encoded fields of any message, with unknown ones among them, puts the known ones. */
  lemma FieldsDecode(w: Wire, fs: seq<Field>)
    requires AllReadable(w, fs) && |EncodeFields(fs)| < I63
    ensures DecodeWire(EncodeFields(fs), 0, w) == PutAll(w, fs)
  {
    var s := EncodeFields(fs);
    LoopReads(s, 0, w, fs);
  }

  // ---------------------------------------------------------------------
  // Building each message from its fields.

  /** The fields can be read into `w`, and make `w2` of it. */
  ghost predicate Builds(w: Wire, fs: seq<Field>, w2: Wire) {
    AllReadable(w, fs) && PutAll(w, fs) == Ok(w2)
  }

  lemma Cons(f: Field, rest: seq<Field>)
    ensures ([f] + rest)[0] == f && ([f] + rest)[1..] == rest
  {
  }

  lemma BuildOne(w: Wire, f: Field, w1: Wire, rest: seq<Field>, w2: Wire)
    requires FieldOk(f) && Knows(w, f) && Put(w, f) == Ok(w1) && Builds(w1, rest, w2)
    ensures Builds(w, [f] + rest, w2)
  {
    Cons(f, rest);
    ReadableAlike(w1, w, rest);
  }

  lemma BuildNumber(w: Wire, num: nat, v: nat, rest: seq<Field>, w2: Wire)
    requires NumOk(num) && v < U64 && KindOf(w, num) == NumberKind
    requires Builds(PutNumber(w, num, v), rest, w2)
    ensures Builds(w, [Number(num, v)] + rest, w2)
  {
    BuildOne(w, Number(num, v), PutNumber(w, num, v), rest, w2);
  }

  lemma BuildBytes(w: Wire, num: nat, data: seq<byte>, rest: seq<Field>, w2: Wire)
    requires NumOk(num) && KindOf(w, num) == BlobKind && Nested(w, num).None?
    requires Builds(PutBytes(w, num, data), rest, w2)
    ensures Builds(w, [Blob(num, data)] + rest, w2)
  {
    BuildOne(w, Blob(num, data), PutBytes(w, num, data), rest, w2);
  }

  lemma BuildNested(w: Wire, num: nat, data: seq<byte>, x: Wire, rest: seq<Field>, w2: Wire)
    requires NumOk(num) && KindOf(w, num) == BlobKind && Nested(w, num).Some?
    requires DecodeWire(data, 0, Nested(w, num).value) == Ok(x)
    requires Builds(PutNested(w, num, x), rest, w2)
    ensures Builds(w, [Blob(num, data)] + rest, w2)
  {
    BuildOne(w, Blob(num, data), PutNested(w, num, x), rest, w2);
  }

  /** Fields that build a message, encoded and decoded. */
  lemma BuildsDecode(w: Wire, fs: seq<Field>, w2: Wire)
    requires Builds(w, fs, w2) && |EncodeFields(fs)| < I63
    ensures DecodeWire(EncodeFields(fs), 0, w) == Ok(w2)
  {
    FieldsDecode(w, fs);
  }

  lemma EnumBack(x: int32)
    ensures ToInt32(ToU64(x)) == x
  {
  }

  // ---------------------------------------------------------------------
  // Entries.

  predicate WfEntry(e: WireEntry) { e.term < U64 && e.index < U64 }

  lemma EntryBuilds(e: WireEntry)
    requires WfEntry(e)
    ensures Builds(EntryW(NO_ENTRY), EntryFields(e), EntryW(e))
  {
    EnumBack(e.etype);
    var e1 := NO_ENTRY.(etype := e.etype);
    var e2 := e1.(term := e.term);
    var e3 := e2.(index := e.index);
    var f4 := OptThen(4, e.data, []);
    if e.data.Some? {
      BuildBytes(EntryW(e3), 4, e.data.value, [], EntryW(e));
    }
    BuildNumber(EntryW(e2), 3, e.index, f4, EntryW(e));
    BuildNumber(EntryW(e1), 2, e.term, [Number(3, e.index)] + f4, EntryW(e));
    BuildNumber(EntryW(NO_ENTRY), 1, ToU64(e.etype), [Number(2, e.term)] + ([Number(3, e.index)] + f4), EntryW(e));
  }

  /** Every entry survives, nil and empty data apart. */
  lemma EntryBack(e: WireEntry)
    requires WfEntry(e) && |EncodeEntry(e)| < I63
    ensures DecodeWire(EncodeEntry(e), 0, EntryW(NO_ENTRY)) == Ok(EntryW(e))
  {
    EntryBuilds(e);
    BuildsDecode(EntryW(NO_ENTRY), EntryFields(e), EntryW(e));
  }

  // ---------------------------------------------------------------------
  // Configuration changes.

  predicate WfChange(h: ConfChange) { h.id < U64 && h.nodeID < U64 }

  lemma ChangeBuilds(h: ConfChange)
    requires WfChange(h)
    ensures Builds(ChangeW(NO_CHANGE), ChangeFields(h), ChangeW(h))
  {
    EnumBack(h.ctype);
    var h1 := NO_CHANGE.(id := h.id);
    var h2 := h1.(ctype := h.ctype);
    var h3 := h2.(nodeID := h.nodeID);
    var f4 := OptThen(4, h.context, []);
    if h.context.Some? {
      BuildBytes(ChangeW(h3), 4, h.context.value, [], ChangeW(h));
    }
    BuildNumber(ChangeW(h2), 3, h.nodeID, f4, ChangeW(h));
    BuildNumber(ChangeW(h1), 2, ToU64(h.ctype), [Number(3, h.nodeID)] + f4, ChangeW(h));
    BuildNumber(ChangeW(NO_CHANGE), 1, h.id, [Number(2, ToU64(h.ctype))] + ([Number(3, h.nodeID)] + f4), ChangeW(h));
  }

  /** Every configuration change survives. */
  lemma ChangeBack(h: ConfChange)
    requires WfChange(h) && |EncodeChange(h)| < I63
    ensures DecodeWire(EncodeChange(h), 0, ChangeW(NO_CHANGE)) == Ok(ChangeW(h))
  {
    ChangeBuilds(h);
    BuildsDecode(ChangeW(NO_CHANGE), ChangeFields(h), ChangeW(h));
  }

  predicate WfSingle(g: ConfChangeSingle) { g.nodeID < U64 }

  /** Every single change survives. */
  lemma SingleBack(g: ConfChangeSingle)
    requires WfSingle(g) && |EncodeSingle(g)| < I63
    ensures DecodeWire(EncodeSingle(g), 0, SingleW(NO_SINGLE)) == Ok(SingleW(g))
  {
    EnumBack(g.ctype);
    BuildNumber(SingleW(NO_SINGLE.(ctype := g.ctype)), 2, g.nodeID, [], SingleW(g));
    BuildNumber(SingleW(NO_SINGLE), 1, ToU64(g.ctype), [Number(2, g.nodeID)] + [], SingleW(g));
    BuildsDecode(SingleW(NO_SINGLE), SingleFields(g), SingleW(g));
  }

  predicate WfSingles(gs: seq<ConfChangeSingle>) {
    forall k :: 0 <= k < |gs| ==> WfSingle(gs[k]) && |EncodeSingle(gs[k])| < I63
  }

  lemma OneMoreSingle(c: ConfChangeV2, g: ConfChangeSingle, rest: seq<Field>, w2: Wire)
    requires WfSingle(g) && |EncodeSingle(g)| < I63
    requires Builds(ChangeV2W(c.(changes := c.changes + [g])), rest, w2)
    ensures Builds(ChangeV2W(c), [Blob(2, EncodeSingle(g))] + rest, w2)
  {
    SingleBack(g);
    BuildNested(ChangeV2W(c), 2, EncodeSingle(g), SingleW(g), rest, w2);
  }

  lemma {:induction false} SinglesBuild(c: ConfChangeV2, gs: seq<ConfChangeSingle>, rest: seq<Field>, w2: Wire)
    requires WfSingles(gs) && Builds(ChangeV2W(c.(changes := c.changes + gs)), rest, w2)
    ensures Builds(ChangeV2W(c), SinglesThen(gs, rest), w2)
    decreases |gs|
  {
    if gs == [] {
      assert c.changes + gs == c.changes;
    } else {
      assert (c.changes + [gs[0]]) + gs[1..] == c.changes + gs;
      SinglesBuild(c.(changes := c.changes + [gs[0]]), gs[1..], rest, w2);
      OneMoreSingle(c, gs[0], SinglesThen(gs[1..], rest), w2);
    }
  }

  lemma {:induction false} SingleAmong(gs: seq<ConfChangeSingle>, rest: seq<Field>, k: nat)
    requires k < |gs|
    ensures Blob(2, EncodeSingle(gs[k])) in SinglesThen(gs, rest)
    decreases |gs|
  {
    if k > 0 {
      SingleAmong(gs[1..], rest, k - 1);
    }
  }

  ghost predicate WfChangeV2(v: ConfChangeV2) { forall k :: 0 <= k < |v.changes| ==> WfSingle(v.changes[k]) }

  lemma SinglesShorter(v: ConfChangeV2)
    requires WfChangeV2(v) && |EncodeChangeV2(v)| < I63
    ensures WfSingles(v.changes)
  {
    forall k | 0 <= k < |v.changes| ensures |EncodeSingle(v.changes[k])| < I63 {
      SingleAmong(v.changes, OptThen(3, v.context, []), k);
      BlobShorter(ChangeV2Fields(v), Blob(2, EncodeSingle(v.changes[k])));
    }
  }

  lemma ChangeV2Builds(v: ConfChangeV2)
    requires WfSingles(v.changes)
    ensures Builds(ChangeV2W(NO_CHANGE_V2), ChangeV2Fields(v), ChangeV2W(v))
  {
    EnumBack(v.transition);
    var c1 := NO_CHANGE_V2.(transition := v.transition);
    var c2 := c1.(changes := v.changes);
    var f3 := OptThen(3, v.context, []);
    if v.context.Some? {
      BuildBytes(ChangeV2W(c2), 3, v.context.value, [], ChangeV2W(v));
    }
    assert c1.changes + v.changes == v.changes;
    SinglesBuild(c1, v.changes, f3, ChangeV2W(v));
    BuildNumber(ChangeV2W(NO_CHANGE_V2), 1, ToU64(v.transition), SinglesThen(v.changes, f3), ChangeV2W(v));
  }

  /** Every configuration change of the second version survives. */
  lemma ChangeV2Back(v: ConfChangeV2)
    requires WfChangeV2(v) && |EncodeChangeV2(v)| < I63
    ensures DecodeWire(EncodeChangeV2(v), 0, ChangeV2W(NO_CHANGE_V2)) == Ok(ChangeV2W(v))
  {
    SinglesShorter(v);
    ChangeV2Builds(v);
    BuildsDecode(ChangeV2W(NO_CHANGE_V2), ChangeV2Fields(v), ChangeV2W(v));
  }

  // ---------------------------------------------------------------------
  // The hard state.

  predicate WfHardState(h: HardState) { h.term < U64 && h.vote < U64 && h.commit < U64 }

  /** Every hard state survives. */
  lemma HardStateBack(h: HardState)
    requires WfHardState(h) && |EncodeHardState(h)| < I63
    ensures DecodeWire(EncodeHardState(h), 0, HardStateW(NO_HARD_STATE)) == Ok(HardStateW(h))
  {
    var h1 := NO_HARD_STATE.(term := h.term);
    var h2 := h1.(vote := h.vote);
    BuildNumber(HardStateW(h2), 3, h.commit, [], HardStateW(h));
    BuildNumber(HardStateW(h1), 2, h.vote, [Number(3, h.commit)] + [], HardStateW(h));
    BuildNumber(HardStateW(NO_HARD_STATE), 1, h.term, [Number(2, h.vote)] + ([Number(3, h.commit)] + []), HardStateW(h));
    BuildsDecode(HardStateW(NO_HARD_STATE), HardStateFields(h), HardStateW(h));
  }

  // ---------------------------------------------------------------------
  // Snapshots.

  ghost predicate WfNumbers(vs: seq<nat>) { forall k :: 0 <= k < |vs| ==> vs[k] < U64 }

  ghost predicate WfConfState(c: ConfState) {
    WfNumbers(c.voters) && WfNumbers(c.learners) && WfNumbers(c.votersOutgoing) && WfNumbers(c.learnersNext)
  }

  lemma PutNumbersSplit(c: ConfState, num: nat, vs: seq<nat>)
    requires vs != []
    ensures PutNumbers(PutNumbers(c, num, [vs[0]]), num, vs[1..]) == PutNumbers(c, num, vs)
  {
    assert [vs[0]] + vs[1..] == vs;
    assert forall x: seq<nat> :: (x + [vs[0]]) + vs[1..] == x + ([vs[0]] + vs[1..]);
  }

  lemma {:induction false} RepeatedBuilds(c: ConfState, num: nat, vs: seq<nat>, rest: seq<Field>, w2: Wire)
    requires 1 <= num <= 4 && WfNumbers(vs) && Builds(ConfStateW(PutNumbers(c, num, vs)), rest, w2)
    ensures Builds(ConfStateW(c), RepeatedThen(num, vs, rest), w2)
    decreases |vs|
  {
    if vs == [] {
      assert PutNumbers(c, num, []) == c;
    } else {
      PutNumbersSplit(c, num, vs);
      RepeatedBuilds(PutNumbers(c, num, [vs[0]]), num, vs[1..], rest, w2);
      BuildOne(ConfStateW(c), Number(num, vs[0]), ConfStateW(PutNumbers(c, num, [vs[0]])),
               RepeatedThen(num, vs[1..], rest), w2);
    }
  }

  lemma ConfStateBuilds(c: ConfState)
    requires WfConfState(c)
    ensures Builds(ConfStateW(NO_CONF_STATE), ConfStateFields(c), ConfStateW(c))
  {
    var c1 := NO_CONF_STATE.(voters := c.voters);
    var c2 := c1.(learners := c.learners);
    var c3 := c2.(votersOutgoing := c.votersOutgoing);
    var c4 := c3.(learnersNext := c.learnersNext);
    var f5 := [Number(5, Bool(c.autoLeave))] + [];
    var f4 := RepeatedThen(4, c.learnersNext, f5);
    var f3 := RepeatedThen(3, c.votersOutgoing, f4);
    var f2 := RepeatedThen(2, c.learners, f3);
    assert PutNumbers(NO_CONF_STATE, 1, c.voters) == c1 && PutNumbers(c1, 2, c.learners) == c2;
    assert PutNumbers(c2, 3, c.votersOutgoing) == c3 && PutNumbers(c3, 4, c.learnersNext) == c4;
    BuildNumber(ConfStateW(c4), 5, Bool(c.autoLeave), [], ConfStateW(c));
    RepeatedBuilds(c3, 4, c.learnersNext, f5, ConfStateW(c));
    RepeatedBuilds(c2, 3, c.votersOutgoing, f4, ConfStateW(c));
    RepeatedBuilds(c1, 2, c.learners, f3, ConfStateW(c));
    RepeatedBuilds(NO_CONF_STATE, 1, c.voters, f2, ConfStateW(c));
  }

  lemma ConfStateBack(c: ConfState)
    requires WfConfState(c) && |EncodeConfState(c)| < I63
    ensures DecodeWire(EncodeConfState(c), 0, ConfStateW(NO_CONF_STATE)) == Ok(ConfStateW(c))
  {
    ConfStateBuilds(c);
    BuildsDecode(ConfStateW(NO_CONF_STATE), ConfStateFields(c), ConfStateW(c));
  }

  /** A blob is shorter than the fields it stands among. */
  lemma {:induction false} BlobShorter(fs: seq<Field>, f: Field)
    requires f in fs && f.Blob?
    ensures |f.data| < |EncodeFields(fs)|
    decreases |fs|
  {
    if f != fs[0] {
      BlobShorter(fs[1..], f);
    }
  }

  ghost predicate WfMetadata(d: SnapshotMetadata) { WfConfState(d.confState) && d.index < U64 && d.term < U64 }

  lemma MetadataBack(d: SnapshotMetadata)
    requires WfMetadata(d) && |EncodeMetadata(d)| < I63
    ensures DecodeWire(EncodeMetadata(d), 0, MetadataW(NO_METADATA)) == Ok(MetadataW(d))
  {
    var data := EncodeConfState(d.confState);
    BlobShorter(MetadataFields(d), Blob(1, data));
    ConfStateBack(d.confState);
    var d1 := NO_METADATA.(confState := d.confState);
    var d2 := d1.(index := d.index);
    BuildNumber(MetadataW(d2), 3, d.term, [], MetadataW(d));
    BuildNumber(MetadataW(d1), 2, d.index, [Number(3, d.term)] + [], MetadataW(d));
    BuildNested(MetadataW(NO_METADATA), 1, data, ConfStateW(d.confState),
                [Number(2, d.index)] + ([Number(3, d.term)] + []), MetadataW(d));
    BuildsDecode(MetadataW(NO_METADATA), MetadataFields(d), MetadataW(d));
  }

  lemma SnapshotBuilds(s: Snapshot)
    requires WfMetadata(s.metadata) && |EncodeMetadata(s.metadata)| < I63
    ensures Builds(SnapshotW(NO_SNAPSHOT), SnapshotFields(s), SnapshotW(s))
  {
    var data := EncodeMetadata(s.metadata);
    MetadataBack(s.metadata);
    var s1 := NO_SNAPSHOT.(data := s.data);
    BuildNested(SnapshotW(s1), 2, data, MetadataW(s.metadata), [], SnapshotW(s));
    if s.data.Some? {
      BuildBytes(SnapshotW(NO_SNAPSHOT), 1, s.data.value, [Blob(2, data)] + [], SnapshotW(s));
    }
  }

  lemma SnapshotBack(s: Snapshot)
    requires WfMetadata(s.metadata) && |EncodeSnapshot(s)| < I63
    ensures DecodeWire(EncodeSnapshot(s), 0, SnapshotW(NO_SNAPSHOT)) == Ok(SnapshotW(s))
  {
    BlobShorter(SnapshotFields(s), Blob(2, EncodeMetadata(s.metadata)));
    SnapshotBuilds(s);
    BuildsDecode(SnapshotW(NO_SNAPSHOT), SnapshotFields(s), SnapshotW(s));
  }

  // ---------------------------------------------------------------------
  // Messages.

  ghost predicate WfHead(m: WireMessage) {
    m.to < U64 && m.from < U64 && m.term < U64 && m.logTerm < U64 && m.index < U64
  }

  ghost predicate WfMiddle(m: WireMessage) {
    && m.commit < U64 && m.rejectHint < U64 && m.vote < U64
    && (m.snapshot.Some? ==> WfMetadata(m.snapshot.value.metadata))
  }

  /** All numbers are uint64, in the message, its entries and snapshot, and its responses. */
  ghost predicate WfMessage(m: WireMessage)
    decreases m
  {
    && WfHead(m) && WfMiddle(m)
    && (forall k :: 0 <= k < |m.entries| ==> WfEntry(m.entries[k]))
    && forall k :: 0 <= k < |m.responses| ==> WfMessage(m.responses[k])
  }

  function TakeHead(m0: WireMessage, m: WireMessage): WireMessage {
    m0.(mtype := m.mtype, to := m.to, from := m.from, term := m.term, logTerm := m.logTerm, index := m.index)
  }

  lemma HeadBuilds(m0: WireMessage, m: WireMessage, rest: seq<Field>, w2: Wire)
    requires WfHead(m) && Builds(MessageW(TakeHead(m0, m)), rest, w2)
    ensures Builds(MessageW(m0), HeadThen(m, rest), w2)
  {
    EnumBack(m.mtype);
    var m1 := m0.(mtype := m.mtype);
    var m2 := m1.(to := m.to);
    var m3 := m2.(from := m.from);
    var m4 := m3.(term := m.term);
    var m5 := m4.(logTerm := m.logTerm);
    var f6 := [Number(6, m.index)] + rest;
    var f5 := [Number(5, m.logTerm)] + f6;
    var f4 := [Number(4, m.term)] + f5;
    var f3 := [Number(3, m.from)] + f4;
    var f2 := [Number(2, m.to)] + f3;
    BuildNumber(MessageW(m5), 6, m.index, rest, w2);
    BuildNumber(MessageW(m4), 5, m.logTerm, f6, w2);
    BuildNumber(MessageW(m3), 4, m.term, f5, w2);
    BuildNumber(MessageW(m2), 3, m.from, f4, w2);
    BuildNumber(MessageW(m1), 2, m.to, f3, w2);
    BuildNumber(MessageW(m0), 1, ToU64(m.mtype), f2, w2);
  }

  predicate WfEntries(es: seq<WireEntry>) {
    forall k :: 0 <= k < |es| ==> WfEntry(es[k]) && |EncodeEntry(es[k])| < I63
  }

  lemma FirstEntryOk(es: seq<WireEntry>)
    requires WfEntries(es) && es != []
    ensures WfEntry(es[0]) && |EncodeEntry(es[0])| < I63 && WfEntries(es[1..])
  {
  }

  lemma EntriesSplit(m: WireMessage, es: seq<WireEntry>)
    requires es != []
    ensures var m1 := m.(entries := m.entries + [es[0]]);
            m1.(entries := m1.entries + es[1..]) == m.(entries := m.entries + es)
  {
    assert (m.entries + [es[0]]) + es[1..] == m.entries + es;
  }

  lemma {:induction false} EntriesBuild(m: WireMessage, es: seq<WireEntry>, rest: seq<Field>, w2: Wire)
    requires WfEntries(es)
    requires Builds(MessageW(m.(entries := m.entries + es)), rest, w2)
    ensures Builds(MessageW(m), EntriesThen(es, rest), w2)
    decreases |es|
  {
    if es == [] {
      assert m.entries + es == m.entries;
    } else {
      FirstEntryOk(es);
      EntriesSplit(m, es);
      EntriesBuild(m.(entries := m.entries + [es[0]]), es[1..], rest, w2);
      OneMoreEntry(m, es[0], EntriesThen(es[1..], rest), w2);
    }
  }

  lemma OneMoreEntry(m: WireMessage, e: WireEntry, rest: seq<Field>, w2: Wire)
    requires WfEntry(e) && |EncodeEntry(e)| < I63
    requires Builds(MessageW(m.(entries := m.entries + [e])), rest, w2)
    ensures Builds(MessageW(m), [Blob(7, EncodeEntry(e))] + rest, w2)
  {
    EntryBack(e);
    BuildNested(MessageW(m), 7, EncodeEntry(e), EntryW(e), rest, w2);
  }

  function TakeMiddle(m0: WireMessage, m: WireMessage): WireMessage {
    m0.(commit := m.commit, snapshot := m.snapshot, reject := m.reject, rejectHint := m.rejectHint,
        context := m.context, vote := m.vote)
  }

  lemma MiddleBuilds(m0: WireMessage, m: WireMessage, rest: seq<Field>, w2: Wire)
    requires WfMiddle(m) && m0.snapshot.None? && m0.context.None?
    requires m.snapshot.Some? ==> |EncodeSnapshot(m.snapshot.value)| < I63
    requires Builds(MessageW(TakeMiddle(m0, m)), rest, w2)
    ensures Builds(MessageW(m0), MiddleThen(m, rest), w2)
  {
    var m1 := m0.(commit := m.commit);
    var m2 := m1.(snapshot := m.snapshot);
    var m3 := m2.(reject := m.reject);
    var m4 := m3.(rejectHint := m.rejectHint);
    var m5 := m4.(context := m.context);
    var f5 := [Number(13, m.vote)] + rest;
    var f4 := OptThen(12, m.context, f5);
    var f3 := [Number(11, m.rejectHint)] + f4;
    var f2 := [Number(10, Bool(m.reject))] + f3;
    BuildNumber(MessageW(m5), 13, m.vote, rest, w2);
    if m.context.Some? {
      BuildBytes(MessageW(m4), 12, m.context.value, f5, w2);
    }
    BuildNumber(MessageW(m3), 11, m.rejectHint, f4, w2);
    BuildNumber(MessageW(m2), 10, Bool(m.reject), f3, w2);
    SnapshotThenBuilds(m1, m, f2, w2);
    BuildNumber(MessageW(m0), 8, m.commit, SnapshotThen(m.snapshot, f2), w2);
  }

  lemma SnapshotThenBuilds(m1: WireMessage, m: WireMessage, rest: seq<Field>, w2: Wire)
    requires WfMiddle(m) && m1.snapshot.None?
    requires m.snapshot.Some? ==> |EncodeSnapshot(m.snapshot.value)| < I63
    requires Builds(MessageW(m1.(snapshot := m.snapshot)), rest, w2)
    ensures Builds(MessageW(m1), SnapshotThen(m.snapshot, rest), w2)
  {
    if m.snapshot.Some? {
      SnapshotBack(m.snapshot.value);
      BuildNested(MessageW(m1), 9, EncodeSnapshot(m.snapshot.value), SnapshotW(m.snapshot.value), rest, w2);
    }
  }

  ghost predicate MessageDecodes(m: WireMessage) {
    DecodeWire(EncodeMessage(m), 0, MessageW(NO_MESSAGE)) == Ok(MessageW(m))
  }

  ghost predicate AllDecode(ms: seq<WireMessage>) {
    forall k {:trigger MessageDecodes(ms[k])} :: 0 <= k < |ms| ==> MessageDecodes(ms[k])
  }

  lemma FirstDecodes(ms: seq<WireMessage>)
    requires ms != [] && AllDecode(ms)
    ensures MessageDecodes(ms[0]) && AllDecode(ms[1..])
  {
    forall k | 0 <= k < |ms[1..]| ensures MessageDecodes(ms[1..][k]) {
      assert MessageDecodes(ms[k + 1]);
    }
    assert MessageDecodes(ms[0]);
  }

  lemma {:induction false} ResponsesBuild(m: WireMessage, ms: seq<WireMessage>)
    requires AllDecode(ms)
    ensures Builds(MessageW(m), ResponseFields(ms), MessageW(m.(responses := m.responses + ms)))
    decreases |ms|
  {
    if ms == [] {
      assert m.responses + ms == m.responses;
    } else {
      FirstDecodes(ms);
      ResponsesBuild(m.(responses := m.responses + [ms[0]]), ms[1..]);
      OneMoreResponse(m, ms[0], ms[1..], ResponseFields(ms[1..]));
      assert [ms[0]] + ms[1..] == ms;
    }
  }

  lemma OneMoreResponse(m: WireMessage, first: WireMessage, others: seq<WireMessage>, rest: seq<Field>)
    requires MessageDecodes(first)
    requires var m1 := m.(responses := m.responses + [first]);
             Builds(MessageW(m1), rest, MessageW(m1.(responses := m1.responses + others)))
    ensures Builds(MessageW(m), [Blob(14, EncodeMessage(first))] + rest,
                   MessageW(m.(responses := m.responses + ([first] + others))))
  {
    assert (m.responses + [first]) + others == m.responses + ([first] + others);
    BuildNested(MessageW(m), 14, EncodeMessage(first), MessageW(first), rest,
                MessageW(m.(responses := m.responses + ([first] + others))));
  }

  lemma {:induction false} ResponseAt(ms: seq<WireMessage>, k: nat)
    requires k < |ms|
    ensures ResponseFields(ms)[k] == Blob(14, EncodeMessage(ms[k]))
    decreases k
  {
    if k > 0 {
      ResponseAt(ms[1..], k - 1);
    }
  }

  lemma EncodesFields(m: WireMessage)
    ensures EncodeMessage(m) == EncodeFields(MessageFields(m))
  {
    var fs := seq(|m.responses|, i requires 0 <= i < |m.responses| => Blob(14, EncodeMessage(m.responses[i])));
    forall k | 0 <= k < |m.responses| ensures fs[k] == ResponseFields(m.responses)[k] {
      ResponseAt(m.responses, k);
    }
    assert fs == ResponseFields(m.responses);
  }

  lemma MessageBuilds(m: WireMessage)
    requires WfHead(m) && WfMiddle(m)
    requires WfEntries(m.entries)
    requires m.snapshot.Some? ==> |EncodeSnapshot(m.snapshot.value)| < I63
    requires AllDecode(m.responses)
    ensures Builds(MessageW(NO_MESSAGE), MessageFields(m), MessageW(m))
  {
    hide AllReadable, EncodeEntry, EncodeFields;
    var m1 := TakeHead(NO_MESSAGE, m);
    var m2 := m1.(entries := m.entries);
    var m3 := TakeMiddle(m2, m);
    assert m1.entries + m.entries == m.entries && m3.responses + m.responses == m.responses;
    var f3 := ResponseFields(m.responses);
    var f2 := MiddleThen(m, f3);
    ResponsesBuild(m3, m.responses);
    MiddleBuilds(m2, m, f3, MessageW(m));
    EntriesBuild(m1, m.entries, f2, MessageW(m));
    HeadBuilds(NO_MESSAGE, m, EntriesThen(m.entries, f2), MessageW(m));
  }

  /** Which nested encodings stand among the fields of a message. */
  lemma {:induction false} EntryAmong(es: seq<WireEntry>, rest: seq<Field>, k: nat)
    requires k < |es|
    ensures Blob(7, EncodeEntry(es[k])) in EntriesThen(es, rest)
    decreases |es|
  {
    if k > 0 {
      EntryAmong(es[1..], rest, k - 1);
    }
  }

  lemma {:induction false} RestAmong(es: seq<WireEntry>, rest: seq<Field>, f: Field)
    requires f in rest
    ensures f in EntriesThen(es, rest)
    decreases |es|
  {
    if es != [] {
      RestAmong(es[1..], rest, f);
    }
  }

  lemma NestedShorter(m: WireMessage)
    ensures forall k :: 0 <= k < |m.entries| ==> |EncodeEntry(m.entries[k])| < |EncodeMessage(m)|
    ensures m.snapshot.Some? ==> |EncodeSnapshot(m.snapshot.value)| < |EncodeMessage(m)|
    ensures forall k :: 0 <= k < |m.responses| ==> |EncodeMessage(m.responses[k])| < |EncodeMessage(m)|
  {
    EncodesFields(m);
    var fs, f2 := MessageFields(m), MiddleThen(m, ResponseFields(m.responses));
    forall k | 0 <= k < |m.entries| ensures |EncodeEntry(m.entries[k])| < |EncodeMessage(m)| {
      EntryAmong(m.entries, f2, k);
      BlobShorter(fs, Blob(7, EncodeEntry(m.entries[k])));
    }
    if m.snapshot.Some? {
      RestAmong(m.entries, f2, Blob(9, EncodeSnapshot(m.snapshot.value)));
      BlobShorter(fs, Blob(9, EncodeSnapshot(m.snapshot.value)));
    }
    forall k | 0 <= k < |m.responses| ensures |EncodeMessage(m.responses[k])| < |EncodeMessage(m)| {
      var f := Blob(14, EncodeMessage(m.responses[k]));
      ResponseAt(m.responses, k);
      RestAmong(m.entries, f2, f);
      BlobShorter(fs, f);
    }
  }

  /** Every message survives: entries, snapshot and, to any depth, responses included. */
  lemma {:induction false} MessageBack(m: WireMessage)
    requires WfMessage(m) && |EncodeMessage(m)| < I63
    ensures MessageDecodes(m)
    decreases m
  {
    NestedShorter(m);
    forall k | 0 <= k < |m.responses| ensures MessageDecodes(m.responses[k]) {
      MessageBack(m.responses[k]);
    }
    MessageBuilds(m);
    EncodesFields(m);
    BuildsDecode(MessageW(NO_MESSAGE), MessageFields(m), MessageW(m));
  }
}
