/** The generated code itself: sizes, buffers filled from the back, and loops that read them. */
module WireCode {
  import opened RaftTypes
  import opened Varint
  import opened Wire
  import opened RoundTrip

  // ---------------------------------------------------------------------
  // Writing one field in front of those already written.

  lemma EncodeCons(f: Field, rest: seq<Field>)
    ensures EncodeFields([f] + rest) == EncodeField(f) + EncodeFields(rest)
  {
    Cons(f, rest);
  }

  /** The buffer was `s`; now the fields `rest` end at `hi`, from `i` on, and nothing else has changed. */
  ghost predicate Holds(a: array<byte>, s: seq<byte>, i: nat, hi: nat, rest: seq<Field>)
    reads a
  {
    && hi <= |s| == a.Length && i + |EncodeFields(rest)| == hi
    && a[..] == Write(s, hi, EncodeFields(rest))
  }

  lemma WriteNothing(s: seq<byte>, i: nat)
    requires i <= |s|
    ensures Write(s, i, []) == s
  {
  }

  lemma SmallKey(num: nat, wireType: nat)
    requires num < 15 && wireType < 8
    ensures Encode(Key(num, wireType)) == [Key(num, wireType)]
  {
  }

  /** i-- and the key byte. */
  method PutByte(a: array<byte>, i: nat, b: byte) returns (j: nat)
    requires 1 <= i <= a.Length
    modifies a
    ensures j == i - 1 && a[..] == Write(old(a[..]), i, [b])
  {
    j := i - 1;
    FillNext(a[..], a[..], j, 0, [b]);
    PutAt(a, j, b);
    FilledIsWrite(old(a[..]), a[..], j, [b]);
  }

  /** i -= len(data) and the copy. */
  method PutData(a: array<byte>, i: nat, data: seq<byte>) returns (j: nat)
    requires |data| <= i <= a.Length
    modifies a
    ensures j == i - |data| && a[..] == Write(old(a[..]), i, data)
  {
    hide Filled, Write;
    j := i - |data|;
    NoneFilled(a[..], j, data);
    var k: nat := 0;
    while k < |data|
      invariant 0 <= k <= |data|
      invariant Filled(old(a[..]), a[..], j, k, data)
    {
      FillNext(old(a[..]), a[..], j, k, data);
      PutAt(a, j + k, data[k]);
      k := k + 1;
    }
    FilledIsWrite(old(a[..]), a[..], j, data);
  }

  /** A length or number and then the key. */
  method PutVarintAndKey(a: array<byte>, i: nat, num: nat, wireType: nat, v: nat) returns (j: nat)
    requires 1 <= num < 15 && wireType < 8 && 1 + Sov(v) <= i <= a.Length
    modifies a
    ensures j == i - 1 - Sov(v) && a[..] == Write(old(a[..]), i, [Key(num, wireType)] + Encode(v))
  {
    ghost var s := a[..];
    j := EncodeVarint(a, i, v);
    j := PutByte(a, j, Key(num, wireType));
    WriteJoins(s, i, Encode(v), [Key(num, wireType)]);
  }

  method PutNumberField(a: array<byte>, i: nat, num: nat, v: nat, ghost s: seq<byte>, ghost hi: nat, ghost rest: seq<Field>)
    returns (j: nat)
    requires 1 <= num < 15 && Holds(a, s, i, hi, rest) && |EncodeFields([Number(num, v)] + rest)| <= hi
    modifies a
    ensures Holds(a, s, j, hi, [Number(num, v)] + rest)
  {
    NumberCons(num, v, rest);
    j := PutVarintAndKey(a, i, num, 0, v);
    WriteJoins(s, hi, EncodeFields(rest), [Key(num, 0)] + Encode(v));
  }

  lemma NumberCons(num: nat, v: nat, rest: seq<Field>)
    requires num < 15
    ensures EncodeFields([Number(num, v)] + rest) == ([Key(num, 0)] + Encode(v)) + EncodeFields(rest)
  {
    EncodeCons(Number(num, v), rest);
    SmallKey(num, 0);
  }

  lemma BlobCons(num: nat, size: nat, data: seq<byte>, rest: seq<Field>)
    requires num < 15 && size == |data|
    ensures EncodeFields([Blob(num, data)] + rest)
            == ([Key(num, 2)] + Encode(size)) + (data + EncodeFields(rest))
  {
    EncodeCons(Blob(num, data), rest);
    SmallKey(num, 2);
    var k, l, r := Encode(Key(num, 2)), Encode(size), EncodeFields(rest);
    Regroup(k, l, data, r);
  }

  lemma Regroup(k: seq<byte>, l: seq<byte>, data: seq<byte>, r: seq<byte>)
    ensures (k + (l + data)) + r == (k + l) + (data + r)
  {
  }

  lemma BlobRoom(num: nat, size: nat, data: seq<byte>, rest: seq<Field>)
    requires num < 15 && size == |data|
    ensures |EncodeFields([Blob(num, data)] + rest)| == 1 + Sov(size) + size + |EncodeFields(rest)|
  {
    BlobCons(num, size, data, rest);
  }

  lemma NestedRoom(num: nat, n: nat, data: seq<byte>, rest: seq<Field>, i: nat, hi: nat)
    requires num < 15 && n == |data| && i + |EncodeFields(rest)| == hi
    requires |EncodeFields([Blob(num, data)] + rest)| <= hi
    ensures n <= i
  {
    BlobRoom(num, n, data, rest);
  }

  lemma NestedStands(s: seq<byte>, t: seq<byte>, i: nat, hi: nat, data: seq<byte>, rest: seq<Field>)
    requires hi <= |s| && |data| <= i && i + |EncodeFields(rest)| == hi
    requires t == Write(Write(s, hi, EncodeFields(rest)), i, data)
    ensures t == Write(s, hi, data + EncodeFields(rest))
  {
    WriteJoins(s, hi, EncodeFields(rest), data);
  }

  /** The length and key in front of a blob that already stands at `i`. */
  method CloseBlob(a: array<byte>, i: nat, num: nat, ghost data: seq<byte>, size: nat,
                   ghost s: seq<byte>, ghost hi: nat, ghost rest: seq<Field>)
    returns (j: nat)
    requires 1 <= num < 15 && size == |data| && hi <= |s| == a.Length && i + size + |EncodeFields(rest)| == hi
    requires a[..] == Write(s, hi, data + EncodeFields(rest)) && |EncodeFields([Blob(num, data)] + rest)| <= hi
    modifies a
    ensures Holds(a, s, j, hi, [Blob(num, data)] + rest)
  {
    BlobCons(num, size, data, rest);
    j := PutVarintAndKey(a, i, num, 2, size);
    WriteJoins(s, hi, data + EncodeFields(rest), [Key(num, 2)] + Encode(size));
  }

  method PutBytesField(a: array<byte>, i: nat, num: nat, data: seq<byte>, ghost s: seq<byte>, ghost hi: nat, ghost rest: seq<Field>)
    returns (j: nat)
    requires 1 <= num < 15 && Holds(a, s, i, hi, rest) && |EncodeFields([Blob(num, data)] + rest)| <= hi
    modifies a
    ensures Holds(a, s, j, hi, [Blob(num, data)] + rest)
  {
    NestedRoom(num, |data|, data, rest, i, hi);
    j := PutData(a, i, data);
    NestedStands(s, a[..], i, hi, data, rest);
    j := CloseBlob(a, j, num, data, |data|, s, hi, rest);
  }

  // ---------------------------------------------------------------------
  // MarshalToSizedBuffer, message by message: the end of the buffer is at `hi`.

  lemma FieldsRoom(f: Field, rest: seq<Field>)
    ensures |EncodeFields(rest)| <= |EncodeFields([f] + rest)|
  {
    EncodeCons(f, rest);
  }

  method MarshalEntry(a: array<byte>, hi: nat, e: WireEntry) returns (size: nat)
    requires |EncodeEntry(e)| <= hi <= a.Length
    modifies a
    ensures size == |EncodeEntry(e)| && a[..] == Write(old(a[..]), hi, EncodeEntry(e))
  {
    ghost var s := a[..];
    WriteNothing(s, hi);
    var i := hi;
    ghost var f4 := OptThen(4, e.data, []);
    ghost var f3 := [Number(3, e.index)] + f4;
    ghost var f2 := [Number(2, e.term)] + f3;
    FieldsRoom(Number(1, ToU64(e.etype)), f2);
    FieldsRoom(Number(2, e.term), f3);
    FieldsRoom(Number(3, e.index), f4);
    if e.data.Some? {
      i := PutBytesField(a, i, 4, e.data.value, s, hi, []);
    }
    i := PutNumberField(a, i, 3, e.index, s, hi, f4);
    i := PutNumberField(a, i, 2, e.term, s, hi, f3);
    i := PutNumberField(a, i, 1, ToU64(e.etype), s, hi, f2);
    size := hi - i;
  }

  method MarshalChange(a: array<byte>, hi: nat, h: ConfChange) returns (size: nat)
    requires |EncodeChange(h)| <= hi <= a.Length
    modifies a
    ensures size == |EncodeChange(h)| && a[..] == Write(old(a[..]), hi, EncodeChange(h))
  {
    ghost var s := a[..];
    WriteNothing(s, hi);
    var i := hi;
    ghost var f4 := OptThen(4, h.context, []);
    ghost var f3 := [Number(3, h.nodeID)] + f4;
    ghost var f2 := [Number(2, ToU64(h.ctype))] + f3;
    FieldsRoom(Number(1, h.id), f2);
    FieldsRoom(Number(2, ToU64(h.ctype)), f3);
    FieldsRoom(Number(3, h.nodeID), f4);
    if h.context.Some? {
      i := PutBytesField(a, i, 4, h.context.value, s, hi, []);
    }
    i := PutNumberField(a, i, 3, h.nodeID, s, hi, f4);
    i := PutNumberField(a, i, 2, ToU64(h.ctype), s, hi, f3);
    i := PutNumberField(a, i, 1, h.id, s, hi, f2);
    size := hi - i;
  }

  method MarshalSingle(a: array<byte>, hi: nat, g: ConfChangeSingle) returns (size: nat)
    requires |EncodeSingle(g)| <= hi <= a.Length
    modifies a
    ensures size == |EncodeSingle(g)| && a[..] == Write(old(a[..]), hi, EncodeSingle(g))
  {
    ghost var s := a[..];
    WriteNothing(s, hi);
    ghost var f2 := [Number(2, g.nodeID)] + [];
    FieldsRoom(Number(1, ToU64(g.ctype)), f2);
    var i := PutNumberField(a, hi, 2, g.nodeID, s, hi, []);
    i := PutNumberField(a, i, 1, ToU64(g.ctype), s, hi, f2);
    size := hi - i;
  }

  method PutSingle(a: array<byte>, i: nat, g: ConfChangeSingle, ghost s: seq<byte>, ghost hi: nat, ghost rest: seq<Field>)
    returns (j: nat)
    requires Holds(a, s, i, hi, rest) && |EncodeFields([Blob(2, EncodeSingle(g))] + rest)| <= hi
    modifies a
    ensures Holds(a, s, j, hi, [Blob(2, EncodeSingle(g))] + rest)
  {
    ghost var data := EncodeSingle(g);
    NestedRoom(2, |data|, data, rest, i, hi);
    var size := MarshalSingle(a, i, g);
    NestedStands(s, a[..], i, hi, data, rest);
    j := CloseBlob(a, i - size, 2, data, size, s, hi, rest);
  }

  lemma {:induction false} SinglesRoom(gs: seq<ConfChangeSingle>, k: nat, rest: seq<Field>)
    requires k <= |gs|
    ensures |EncodeFields(SinglesThen(gs[k..], rest))| <= |EncodeFields(SinglesThen(gs, rest))|
    decreases k
  {
    if k == 0 {
      assert gs[0..] == gs;
    } else {
      SinglesRoom(gs, k - 1, rest);
      assert gs[k - 1..][1..] == gs[k..];
      FieldsRoom(Blob(2, EncodeSingle(gs[k - 1])), SinglesThen(gs[k..], rest));
    }
  }

  method PutSingles(a: array<byte>, i: nat, gs: seq<ConfChangeSingle>, ghost s: seq<byte>, ghost hi: nat, ghost rest: seq<Field>)
    returns (j: nat)
    requires Holds(a, s, i, hi, rest) && |EncodeFields(SinglesThen(gs, rest))| <= hi
    modifies a
    ensures Holds(a, s, j, hi, SinglesThen(gs, rest))
  {
    j := i;
    var k := |gs|;
    while k > 0
      invariant 0 <= k <= |gs|
      invariant Holds(a, s, j, hi, SinglesThen(gs[k..], rest))
    {
      k := k - 1;
      assert gs[k..][1..] == gs[k + 1..];
      SinglesRoom(gs, k, rest);
      j := PutSingle(a, j, gs[k], s, hi, SinglesThen(gs[k + 1..], rest));
    }
    assert gs[0..] == gs;
  }

  method MarshalChangeV2(a: array<byte>, hi: nat, v: ConfChangeV2) returns (size: nat)
    requires |EncodeChangeV2(v)| <= hi <= a.Length
    modifies a
    ensures size == |EncodeChangeV2(v)| && a[..] == Write(old(a[..]), hi, EncodeChangeV2(v))
  {
    ghost var s := a[..];
    WriteNothing(s, hi);
    var i := hi;
    ghost var f3 := OptThen(3, v.context, []);
    ghost var f2 := SinglesThen(v.changes, f3);
    FieldsRoom(Number(1, ToU64(v.transition)), f2);
    SinglesRoom(v.changes, |v.changes|, f3);
    assert v.changes[|v.changes|..] == [];
    if v.context.Some? {
      i := PutBytesField(a, i, 3, v.context.value, s, hi, []);
    }
    i := PutSingles(a, i, v.changes, s, hi, f3);
    i := PutNumberField(a, i, 1, ToU64(v.transition), s, hi, f2);
    size := hi - i;
  }

  method MarshalHardState(a: array<byte>, hi: nat, h: HardState) returns (size: nat)
    requires |EncodeHardState(h)| <= hi <= a.Length
    modifies a
    ensures size == |EncodeHardState(h)| && a[..] == Write(old(a[..]), hi, EncodeHardState(h))
  {
    ghost var s := a[..];
    WriteNothing(s, hi);
    ghost var f3 := [Number(3, h.commit)] + [];
    ghost var f2 := [Number(2, h.vote)] + f3;
    FieldsRoom(Number(1, h.term), f2);
    FieldsRoom(Number(2, h.vote), f3);
    var i := PutNumberField(a, hi, 3, h.commit, s, hi, []);
    i := PutNumberField(a, i, 2, h.vote, s, hi, f3);
    i := PutNumberField(a, i, 1, h.term, s, hi, f2);
    size := hi - i;
  }

  lemma {:induction false} RepeatedRoom(num: nat, vs: seq<nat>, k: nat, rest: seq<Field>)
    requires k <= |vs|
    ensures |EncodeFields(RepeatedThen(num, vs[k..], rest))| <= |EncodeFields(RepeatedThen(num, vs, rest))|
    decreases k
  {
    if k == 0 {
      assert vs[0..] == vs;
    } else {
      RepeatedRoom(num, vs, k - 1, rest);
      assert vs[k - 1..][1..] == vs[k..];
      FieldsRoom(Number(num, vs[k - 1]), RepeatedThen(num, vs[k..], rest));
    }
  }

  /** The loop that writes a repeated number, last one first. */
  method PutRepeated(a: array<byte>, i: nat, num: nat, vs: seq<nat>, ghost s: seq<byte>, ghost hi: nat, ghost rest: seq<Field>) returns (j: nat)
    requires 1 <= num < 15 && Holds(a, s, i, hi, rest) && |EncodeFields(RepeatedThen(num, vs, rest))| <= hi
    modifies a
    ensures Holds(a, s, j, hi, RepeatedThen(num, vs, rest))
  {
    j := i;
    var k := |vs|;
    while k > 0
      invariant 0 <= k <= |vs|
      invariant Holds(a, s, j, hi, RepeatedThen(num, vs[k..], rest))
    {
      k := k - 1;
      assert vs[k..][1..] == vs[k + 1..];
      RepeatedRoom(num, vs, k, rest);
      j := PutNumberField(a, j, num, vs[k], s, hi, RepeatedThen(num, vs[k + 1..], rest));
    }
    assert vs[0..] == vs;
  }

  lemma RepeatedMore(num: nat, vs: seq<nat>, rest: seq<Field>)
    ensures |EncodeFields(rest)| <= |EncodeFields(RepeatedThen(num, vs, rest))|
  {
    RepeatedRoom(num, vs, |vs|, rest);
    assert vs[|vs|..] == [];
  }

  method MarshalConfState(a: array<byte>, hi: nat, c: ConfState) returns (size: nat)
    requires |EncodeConfState(c)| <= hi <= a.Length
    modifies a
    ensures size == |EncodeConfState(c)| && a[..] == Write(old(a[..]), hi, EncodeConfState(c))
  {
    ghost var s := a[..];
    WriteNothing(s, hi);
    ghost var f5 := [Number(5, Bool(c.autoLeave))] + [];
    ghost var f4 := RepeatedThen(4, c.learnersNext, f5);
    ghost var f3 := RepeatedThen(3, c.votersOutgoing, f4);
    ghost var f2 := RepeatedThen(2, c.learners, f3);
    RepeatedMore(1, c.voters, f2);
    RepeatedMore(2, c.learners, f3);
    RepeatedMore(3, c.votersOutgoing, f4);
    RepeatedMore(4, c.learnersNext, f5);
    var i := PutNumberField(a, hi, 5, if c.autoLeave then 1 else 0, s, hi, []);
    i := PutRepeated(a, i, 4, c.learnersNext, s, hi, f5);
    i := PutRepeated(a, i, 3, c.votersOutgoing, s, hi, f4);
    i := PutRepeated(a, i, 2, c.learners, s, hi, f3);
    i := PutRepeated(a, i, 1, c.voters, s, hi, f2);
    size := hi - i;
  }

  method PutConfState(a: array<byte>, i: nat, c: ConfState, ghost s: seq<byte>, ghost hi: nat, ghost rest: seq<Field>) returns (j: nat)
    requires Holds(a, s, i, hi, rest) && |EncodeFields([Blob(1, EncodeConfState(c))] + rest)| <= hi
    modifies a
    ensures Holds(a, s, j, hi, [Blob(1, EncodeConfState(c))] + rest)
  {
    ghost var data := EncodeConfState(c);
    NestedRoom(1, |data|, data, rest, i, hi);
    var size := MarshalConfState(a, i, c);
    NestedStands(s, a[..], i, hi, data, rest);
    j := CloseBlob(a, i - size, 1, data, size, s, hi, rest);
  }

  method MarshalMetadata(a: array<byte>, hi: nat, d: SnapshotMetadata) returns (size: nat)
    requires |EncodeMetadata(d)| <= hi <= a.Length
    modifies a
    ensures size == |EncodeMetadata(d)| && a[..] == Write(old(a[..]), hi, EncodeMetadata(d))
  {
    ghost var s := a[..];
    WriteNothing(s, hi);
    ghost var f3 := [Number(3, d.term)] + [];
    ghost var f2 := [Number(2, d.index)] + f3;
    FieldsRoom(Blob(1, EncodeConfState(d.confState)), f2);
    FieldsRoom(Number(2, d.index), f3);
    var i := PutNumberField(a, hi, 3, d.term, s, hi, []);
    i := PutNumberField(a, i, 2, d.index, s, hi, f3);
    i := PutConfState(a, i, d.confState, s, hi, f2);
    size := hi - i;
  }

  method PutMetadata(a: array<byte>, i: nat, d: SnapshotMetadata, ghost s: seq<byte>, ghost hi: nat, ghost rest: seq<Field>) returns (j: nat)
    requires Holds(a, s, i, hi, rest) && |EncodeFields([Blob(2, EncodeMetadata(d))] + rest)| <= hi
    modifies a
    ensures Holds(a, s, j, hi, [Blob(2, EncodeMetadata(d))] + rest)
  {
    ghost var data := EncodeMetadata(d);
    NestedRoom(2, |data|, data, rest, i, hi);
    var size := MarshalMetadata(a, i, d);
    NestedStands(s, a[..], i, hi, data, rest);
    j := CloseBlob(a, i - size, 2, data, size, s, hi, rest);
  }

  method MarshalSnapshot(a: array<byte>, hi: nat, x: Snapshot) returns (size: nat)
    requires |EncodeSnapshot(x)| <= hi <= a.Length
    modifies a
    ensures size == |EncodeSnapshot(x)| && a[..] == Write(old(a[..]), hi, EncodeSnapshot(x))
  {
    ghost var s := a[..];
    WriteNothing(s, hi);
    ghost var f2 := [Blob(2, EncodeMetadata(x.metadata))] + [];
    if x.data.Some? {
      FieldsRoom(Blob(1, x.data.value), f2);
    }
    var i := PutMetadata(a, hi, x.metadata, s, hi, []);
    if x.data.Some? {
      i := PutBytesField(a, i, 1, x.data.value, s, hi, f2);
    }
    size := hi - i;
  }

  method PutSnapshot(a: array<byte>, i: nat, x: Snapshot, ghost s: seq<byte>, ghost hi: nat, ghost rest: seq<Field>) returns (j: nat)
    requires Holds(a, s, i, hi, rest) && |EncodeFields([Blob(9, EncodeSnapshot(x))] + rest)| <= hi
    modifies a
    ensures Holds(a, s, j, hi, [Blob(9, EncodeSnapshot(x))] + rest)
  {
    ghost var data := EncodeSnapshot(x);
    NestedRoom(9, |data|, data, rest, i, hi);
    var size := MarshalSnapshot(a, i, x);
    NestedStands(s, a[..], i, hi, data, rest);
    j := CloseBlob(a, i - size, 9, data, size, s, hi, rest);
  }

  method PutEntry(a: array<byte>, i: nat, e: WireEntry, ghost s: seq<byte>, ghost hi: nat, ghost rest: seq<Field>) returns (j: nat)
    requires Holds(a, s, i, hi, rest) && |EncodeFields([Blob(7, EncodeEntry(e))] + rest)| <= hi
    modifies a
    ensures Holds(a, s, j, hi, [Blob(7, EncodeEntry(e))] + rest)
  {
    ghost var data := EncodeEntry(e);
    NestedRoom(7, |data|, data, rest, i, hi);
    var size := MarshalEntry(a, i, e);
    NestedStands(s, a[..], i, hi, data, rest);
    j := CloseBlob(a, i - size, 7, data, size, s, hi, rest);
  }

  lemma {:induction false} EntriesRoom(es: seq<WireEntry>, k: nat, rest: seq<Field>)
    requires k <= |es|
    ensures |EncodeFields(EntriesThen(es[k..], rest))| <= |EncodeFields(EntriesThen(es, rest))|
    decreases k
  {
    if k == 0 {
      assert es[0..] == es;
    } else {
      EntriesRoom(es, k - 1, rest);
      assert es[k - 1..][1..] == es[k..];
      FieldsRoom(Blob(7, EncodeEntry(es[k - 1])), EntriesThen(es[k..], rest));
    }
  }

  method PutEntries(a: array<byte>, i: nat, es: seq<WireEntry>, ghost s: seq<byte>, ghost hi: nat, ghost rest: seq<Field>) returns (j: nat)
    requires Holds(a, s, i, hi, rest) && |EncodeFields(EntriesThen(es, rest))| <= hi
    modifies a
    ensures Holds(a, s, j, hi, EntriesThen(es, rest))
  {
    j := i;
    var k := |es|;
    while k > 0
      invariant 0 <= k <= |es|
      invariant Holds(a, s, j, hi, EntriesThen(es[k..], rest))
    {
      k := k - 1;
      assert es[k..][1..] == es[k + 1..];
      EntriesRoom(es, k, rest);
      j := PutEntry(a, j, es[k], s, hi, EntriesThen(es[k + 1..], rest));
    }
    assert es[0..] == es;
  }

  /** Type, addresses and log position: fields 1 to 6. */
  method PutHead(a: array<byte>, i: nat, m: WireMessage, ghost s: seq<byte>, ghost hi: nat, ghost rest: seq<Field>) returns (j: nat)
    requires Holds(a, s, i, hi, rest) && |EncodeFields(HeadThen(m, rest))| <= hi
    modifies a
    ensures Holds(a, s, j, hi, HeadThen(m, rest))
  {
    ghost var f6 := [Number(6, m.index)] + rest;
    ghost var f5 := [Number(5, m.logTerm)] + f6;
    ghost var f4 := [Number(4, m.term)] + f5;
    ghost var f3 := [Number(3, m.from)] + f4;
    ghost var f2 := [Number(2, m.to)] + f3;
    FieldsRoom(Number(1, ToU64(m.mtype)), f2);
    FieldsRoom(Number(2, m.to), f3);
    FieldsRoom(Number(3, m.from), f4);
    FieldsRoom(Number(4, m.term), f5);
    FieldsRoom(Number(5, m.logTerm), f6);
    j := PutNumberField(a, i, 6, m.index, s, hi, rest);
    j := PutNumberField(a, j, 5, m.logTerm, s, hi, f6);
    j := PutNumberField(a, j, 4, m.term, s, hi, f5);
    j := PutNumberField(a, j, 3, m.from, s, hi, f4);
    j := PutNumberField(a, j, 2, m.to, s, hi, f3);
    j := PutNumberField(a, j, 1, ToU64(m.mtype), s, hi, f2);
  }

  lemma MiddleRoom(m: WireMessage, rest: seq<Field>)
    ensures var f13 := [Number(13, m.vote)] + rest;
            var f12 := OptThen(12, m.context, f13);
            var f11 := [Number(11, m.rejectHint)] + f12;
            var f10 := [Number(10, Bool(m.reject))] + f11;
            var f9 := SnapshotThen(m.snapshot, f10);
            var all := |EncodeFields(MiddleThen(m, rest))|;
            && MiddleThen(m, rest) == [Number(8, m.commit)] + f9
            && |EncodeFields(f13)| <= |EncodeFields(f12)| <= |EncodeFields(f11)| <= |EncodeFields(f10)|
               <= |EncodeFields(f9)| <= all
  {
    var f13 := [Number(13, m.vote)] + rest;
    var f12 := OptThen(12, m.context, f13);
    var f11 := [Number(11, m.rejectHint)] + f12;
    var f10 := [Number(10, Bool(m.reject))] + f11;
    if m.context.Some? {
      FieldsRoom(Blob(12, m.context.value), f13);
    }
    FieldsRoom(Number(11, m.rejectHint), f12);
    FieldsRoom(Number(10, Bool(m.reject)), f11);
    if m.snapshot.Some? {
      FieldsRoom(Blob(9, EncodeSnapshot(m.snapshot.value)), f10);
    }
    FieldsRoom(Number(8, m.commit), SnapshotThen(m.snapshot, f10));
  }

  /** Everything between the entries and the responses: fields 8 to 13. */
  method PutMiddle(a: array<byte>, i: nat, m: WireMessage, ghost s: seq<byte>, ghost hi: nat, ghost rest: seq<Field>) returns (j: nat)
    requires Holds(a, s, i, hi, rest) && |EncodeFields(MiddleThen(m, rest))| <= hi
    modifies a
    ensures Holds(a, s, j, hi, MiddleThen(m, rest))
  {
    ghost var f13 := [Number(13, m.vote)] + rest;
    ghost var f12 := OptThen(12, m.context, f13);
    ghost var f11 := [Number(11, m.rejectHint)] + f12;
    ghost var f10 := [Number(10, Bool(m.reject))] + f11;
    MiddleRoom(m, rest);
    j := PutNumberField(a, i, 13, m.vote, s, hi, rest);
    if m.context.Some? {
      j := PutBytesField(a, j, 12, m.context.value, s, hi, f13);
    }
    j := PutNumberField(a, j, 11, m.rejectHint, s, hi, f12);
    j := PutNumberField(a, j, 10, if m.reject then 1 else 0, s, hi, f11);
    if m.snapshot.Some? {
      j := PutSnapshot(a, j, m.snapshot.value, s, hi, f10);
    }
    j := PutNumberField(a, j, 8, m.commit, s, hi, SnapshotThen(m.snapshot, f10));
  }

  lemma NextResponse(ms: seq<WireMessage>, k: nat)
    requires k < |ms|
    ensures ResponseFields(ms[k..]) == [Blob(14, EncodeMessage(ms[k]))] + ResponseFields(ms[k + 1..])
  {
    assert ms[k..][1..] == ms[k + 1..];
  }

  lemma {:induction false} ResponsesRoom(ms: seq<WireMessage>, k: nat)
    requires k <= |ms|
    ensures |EncodeFields(ResponseFields(ms[k..]))| <= |EncodeFields(ResponseFields(ms))|
    decreases k
  {
    if k == 0 {
      assert ms[0..] == ms;
    } else {
      ResponsesRoom(ms, k - 1);
      NextResponse(ms, k - 1);
      FieldsRoom(Blob(14, EncodeMessage(ms[k - 1])), ResponseFields(ms[k..]));
    }
  }

  method PutResponse(a: array<byte>, i: nat, m: WireMessage, ghost s: seq<byte>, ghost hi: nat, ghost rest: seq<Field>) returns (j: nat)
    requires Holds(a, s, i, hi, rest) && |EncodeFields([Blob(14, EncodeMessage(m))] + rest)| <= hi
    modifies a
    ensures Holds(a, s, j, hi, [Blob(14, EncodeMessage(m))] + rest)
    decreases m, 1
  {
    ghost var data := EncodeMessage(m);
    NestedRoom(14, |data|, data, rest, i, hi);
    var size := MarshalMessage(a, i, m);
    NestedStands(s, a[..], i, hi, data, rest);
    j := CloseBlob(a, i - size, 14, data, size, s, hi, rest);
  }

  lemma MessageRoom(m: WireMessage)
    ensures var f14 := ResponseFields(m.responses);
            var f8 := MiddleThen(m, f14);
            && |EncodeFields(f14)| <= |EncodeFields(f8)| <= |EncodeFields(EntriesThen(m.entries, f8))|
               <= |EncodeMessage(m)|
            && EncodeMessage(m) == EncodeFields(HeadThen(m, EntriesThen(m.entries, f8)))
  {
    EncodesFields(m);
    var f14 := ResponseFields(m.responses);
    var f8 := MiddleThen(m, f14);
    MiddleRoom(m, f14);
    FieldsRoom(Number(13, m.vote), f14);
    EntriesRoom(m.entries, |m.entries|, f8);
    assert m.entries[|m.entries|..] == [];
    HeadRoom(m, EntriesThen(m.entries, f8));
  }

  lemma HeadRoom(m: WireMessage, rest: seq<Field>)
    ensures |EncodeFields(rest)| <= |EncodeFields(HeadThen(m, rest))|
  {
    var f6 := [Number(6, m.index)] + rest;
    var f5 := [Number(5, m.logTerm)] + f6;
    var f4 := [Number(4, m.term)] + f5;
    var f3 := [Number(3, m.from)] + f4;
    var f2 := [Number(2, m.to)] + f3;
    FieldsRoom(Number(1, ToU64(m.mtype)), f2);
    FieldsRoom(Number(2, m.to), f3);
    FieldsRoom(Number(3, m.from), f4);
    FieldsRoom(Number(4, m.term), f5);
    FieldsRoom(Number(5, m.logTerm), f6);
    FieldsRoom(Number(6, m.index), rest);
  }

  /** Message.MarshalToSizedBuffer, nested responses included; it writes nothing outside its part. */
  method MarshalMessage(a: array<byte>, hi: nat, m: WireMessage) returns (size: nat)
    requires |EncodeMessage(m)| <= hi <= a.Length
    modifies a
    ensures size == |EncodeMessage(m)| && a[..] == Write(old(a[..]), hi, EncodeMessage(m))
    decreases m, 0
  {
    ghost var s := a[..];
    WriteNothing(s, hi);
    MessageRoom(m);
    ghost var f14 := ResponseFields(m.responses);
    ghost var f8 := MiddleThen(m, f14);
    var i, k := hi, |m.responses|;
    while k > 0
      invariant 0 <= k <= |m.responses|
      invariant Holds(a, s, i, hi, ResponseFields(m.responses[k..]))
    {
      k := k - 1;
      NextResponse(m.responses, k);
      ResponsesRoom(m.responses, k);
      i := PutResponse(a, i, m.responses[k], s, hi, ResponseFields(m.responses[k + 1..]));
    }
    assert m.responses[0..] == m.responses;
    i := PutMiddle(a, i, m, s, hi, f14);
    i := PutEntries(a, i, m.entries, s, hi, f8);
    i := PutHead(a, i, m, s, hi, EntriesThen(m.entries, f8));
    size := hi - i;
  }

  // ---------------------------------------------------------------------
  // Size, computed without encoding.

  lemma NumberSize(num: nat, v: nat, rest: seq<Field>)
    requires num < 15
    ensures |EncodeFields([Number(num, v)] + rest)| == 1 + SovRaft(v) + |EncodeFields(rest)|
  {
    NumberCons(num, v, rest);
    SovRaftIsLength(v);
  }

  lemma BlobSize(num: nat, n: nat, data: seq<byte>, rest: seq<Field>)
    requires num < 15 && n == |data|
    ensures |EncodeFields([Blob(num, data)] + rest)| == 1 + n + SovRaft(n) + |EncodeFields(rest)|
  {
    BlobRoom(num, n, data, rest);
    SovRaftIsLength(n);
  }

  method SizeOpt(num: nat, data: Option<seq<byte>>, ghost rest: seq<Field>) returns (n: nat)
    requires num < 15
    ensures n + |EncodeFields(rest)| == |EncodeFields(OptThen(num, data, rest))|
  {
    if data.None? {
      return 0;
    }
    var l := |data.value|;
    BlobSize(num, l, data.value, rest);
    n := 1 + l + SovRaft(l);
  }

  method SizeEntry(e: WireEntry) returns (n: nat)
    ensures n == |EncodeEntry(e)|
  {
    ghost var f4 := OptThen(4, e.data, []);
    ghost var f3 := [Number(3, e.index)] + f4;
    NumberSize(1, ToU64(e.etype), [Number(2, e.term)] + f3);
    NumberSize(2, e.term, f3);
    NumberSize(3, e.index, f4);
    n := 1 + SovRaft(ToU64(e.etype));
    n := n + 1 + SovRaft(e.term);
    n := n + 1 + SovRaft(e.index);
    var l := SizeOpt(4, e.data, []);
    n := n + l;
  }

  method SizeChange(h: ConfChange) returns (n: nat)
    ensures n == |EncodeChange(h)|
  {
    ghost var f4 := OptThen(4, h.context, []);
    ghost var f3 := [Number(3, h.nodeID)] + f4;
    NumberSize(1, h.id, [Number(2, ToU64(h.ctype))] + f3);
    NumberSize(2, ToU64(h.ctype), f3);
    NumberSize(3, h.nodeID, f4);
    n := 1 + SovRaft(h.id);
    n := n + 1 + SovRaft(ToU64(h.ctype));
    n := n + 1 + SovRaft(h.nodeID);
    var l := SizeOpt(4, h.context, []);
    n := n + l;
  }

  method SizeSingle(g: ConfChangeSingle) returns (n: nat)
    ensures n == |EncodeSingle(g)|
  {
    NumberSize(1, ToU64(g.ctype), [Number(2, g.nodeID)] + []);
    NumberSize(2, g.nodeID, []);
    n := 1 + SovRaft(ToU64(g.ctype));
    n := n + 1 + SovRaft(g.nodeID);
  }

  method SizeChangeV2(v: ConfChangeV2) returns (n: nat)
    ensures n == |EncodeChangeV2(v)|
  {
    ghost var f3 := OptThen(3, v.context, []);
    NumberSize(1, ToU64(v.transition), SinglesThen(v.changes, f3));
    n := 1 + SovRaft(ToU64(v.transition));
    var k := 0;
    while k < |v.changes|
      invariant 0 <= k <= |v.changes|
      invariant n + |EncodeFields(SinglesThen(v.changes[k..], f3))| == |EncodeChangeV2(v)|
    {
      assert v.changes[k..][1..] == v.changes[k + 1..];
      var l := SizeSingle(v.changes[k]);
      BlobSize(2, l, EncodeSingle(v.changes[k]), SinglesThen(v.changes[k + 1..], f3));
      n := n + 1 + l + SovRaft(l);
      k := k + 1;
    }
    assert v.changes[k..] == [];
    var c := SizeOpt(3, v.context, []);
    n := n + c;
  }

  method SizeHardState(h: HardState) returns (n: nat)
    ensures n == |EncodeHardState(h)|
  {
    NumberSize(1, h.term, [Number(2, h.vote)] + ([Number(3, h.commit)] + []));
    NumberSize(2, h.vote, [Number(3, h.commit)] + []);
    NumberSize(3, h.commit, []);
    n := 1 + SovRaft(h.term);
    n := n + 1 + SovRaft(h.vote);
    n := n + 1 + SovRaft(h.commit);
  }

  method SizeRepeated(num: nat, vs: seq<nat>, ghost rest: seq<Field>) returns (n: nat)
    requires num < 15
    ensures n + |EncodeFields(rest)| == |EncodeFields(RepeatedThen(num, vs, rest))|
  {
    n := 0;
    var k := 0;
    while k < |vs|
      invariant 0 <= k <= |vs|
      invariant n + |EncodeFields(RepeatedThen(num, vs[k..], rest))| == |EncodeFields(RepeatedThen(num, vs, rest))|
    {
      assert vs[k..][1..] == vs[k + 1..];
      NumberSize(num, vs[k], RepeatedThen(num, vs[k + 1..], rest));
      n := n + 1 + SovRaft(vs[k]);
      k := k + 1;
    }
    assert vs[k..] == [];
  }

  method SizeConfState(c: ConfState) returns (n: nat)
    ensures n == |EncodeConfState(c)|
  {
    ghost var f5 := [Number(5, Bool(c.autoLeave))] + [];
    ghost var f4 := RepeatedThen(4, c.learnersNext, f5);
    ghost var f3 := RepeatedThen(3, c.votersOutgoing, f4);
    ghost var f2 := RepeatedThen(2, c.learners, f3);
    NumberSize(5, Bool(c.autoLeave), []);
    BoolSize(c.autoLeave);
    var n1 := SizeRepeated(1, c.voters, f2);
    var n2 := SizeRepeated(2, c.learners, f3);
    var n3 := SizeRepeated(3, c.votersOutgoing, f4);
    var n4 := SizeRepeated(4, c.learnersNext, f5);
    n := n1 + n2 + n3 + n4 + 2;
  }

  lemma BoolSize(b: bool)
    ensures SovRaft(Bool(b)) == 1
  {
    SovRaftIsLength(Bool(b));
  }

  method SizeMetadata(d: SnapshotMetadata) returns (n: nat)
    ensures n == |EncodeMetadata(d)|
  {
    ghost var f3 := [Number(3, d.term)] + [];
    ghost var f2 := [Number(2, d.index)] + f3;
    NumberSize(2, d.index, f3);
    NumberSize(3, d.term, []);
    var l := SizeConfState(d.confState);
    BlobSize(1, l, EncodeConfState(d.confState), f2);
    n := 1 + l + SovRaft(l);
    n := n + 1 + SovRaft(d.index);
    n := n + 1 + SovRaft(d.term);
  }

  method SizeSnapshot(x: Snapshot) returns (n: nat)
    ensures n == |EncodeSnapshot(x)|
  {
    ghost var f2 := [Blob(2, EncodeMetadata(x.metadata))] + [];
    n := SizeOpt(1, x.data, f2);
    var l := SizeMetadata(x.metadata);
    BlobSize(2, l, EncodeMetadata(x.metadata), []);
    n := n + 1 + l + SovRaft(l);
  }

  method SizeEntries(es: seq<WireEntry>, ghost rest: seq<Field>) returns (n: nat)
    ensures n + |EncodeFields(rest)| == |EncodeFields(EntriesThen(es, rest))|
  {
    n := 0;
    var k := 0;
    while k < |es|
      invariant 0 <= k <= |es|
      invariant n + |EncodeFields(EntriesThen(es[k..], rest))| == |EncodeFields(EntriesThen(es, rest))|
    {
      assert es[k..][1..] == es[k + 1..];
      var l := SizeEntry(es[k]);
      BlobSize(7, l, EncodeEntry(es[k]), EntriesThen(es[k + 1..], rest));
      n := n + 1 + l + SovRaft(l);
      k := k + 1;
    }
    assert es[k..] == [];
  }

  method SizeHead(m: WireMessage, ghost rest: seq<Field>) returns (n: nat)
    ensures n + |EncodeFields(rest)| == |EncodeFields(HeadThen(m, rest))|
  {
    ghost var f6 := [Number(6, m.index)] + rest;
    ghost var f5 := [Number(5, m.logTerm)] + f6;
    ghost var f4 := [Number(4, m.term)] + f5;
    ghost var f3 := [Number(3, m.from)] + f4;
    ghost var f2 := [Number(2, m.to)] + f3;
    NumberSize(1, ToU64(m.mtype), f2);
    NumberSize(2, m.to, f3);
    NumberSize(3, m.from, f4);
    NumberSize(4, m.term, f5);
    NumberSize(5, m.logTerm, f6);
    NumberSize(6, m.index, rest);
    n := 1 + SovRaft(ToU64(m.mtype));
    n := n + 1 + SovRaft(m.to);
    n := n + 1 + SovRaft(m.from);
    n := n + 1 + SovRaft(m.term);
    n := n + 1 + SovRaft(m.logTerm);
    n := n + 1 + SovRaft(m.index);
  }

  method SizeMiddle(m: WireMessage, ghost rest: seq<Field>) returns (n: nat)
    ensures n + |EncodeFields(rest)| == |EncodeFields(MiddleThen(m, rest))|
  {
    ghost var f13 := [Number(13, m.vote)] + rest;
    ghost var f12 := OptThen(12, m.context, f13);
    ghost var f11 := [Number(11, m.rejectHint)] + f12;
    ghost var f10 := [Number(10, Bool(m.reject))] + f11;
    NumberSize(8, m.commit, SnapshotThen(m.snapshot, f10));
    NumberSize(10, Bool(m.reject), f11);
    BoolSize(m.reject);
    NumberSize(11, m.rejectHint, f12);
    NumberSize(13, m.vote, rest);
    n := 1 + SovRaft(m.commit);
    if m.snapshot.Some? {
      var l := SizeSnapshot(m.snapshot.value);
      BlobSize(9, l, EncodeSnapshot(m.snapshot.value), f10);
      n := n + 1 + l + SovRaft(l);
    }
    n := n + 2;
    n := n + 1 + SovRaft(m.rejectHint);
    var c := SizeOpt(12, m.context, f13);
    n := n + c;
    n := n + 1 + SovRaft(m.vote);
  }

  /** Message.Size is exactly the number of bytes that marshalling writes. */
  method SizeMessage(m: WireMessage) returns (n: nat)
    ensures n == |EncodeMessage(m)|
    decreases m
  {
    ghost var f14 := ResponseFields(m.responses);
    ghost var f8 := MiddleThen(m, f14);
    MessageRoom(m);
    n := SizeHead(m, EntriesThen(m.entries, f8));
    var n7 := SizeEntries(m.entries, f8);
    var n8 := SizeMiddle(m, f14);
    n := n + n7 + n8;
    var k := 0;
    while k < |m.responses|
      invariant 0 <= k <= |m.responses|
      invariant n + |EncodeFields(ResponseFields(m.responses[k..]))| == |EncodeMessage(m)|
    {
      NextResponse(m.responses, k);
      var l := SizeMessage(m.responses[k]);
      BlobSize(14, l, EncodeMessage(m.responses[k]), ResponseFields(m.responses[k + 1..]));
      n := n + 1 + l + SovRaft(l);
      k := k + 1;
    }
    assert m.responses[k..] == [];
  }

  /** Message.Marshal: a buffer of exactly that size, filled to the first byte. */
  method Marshal(m: WireMessage) returns (dAtA: seq<byte>)
    ensures dAtA == EncodeMessage(m)
  {
    var size := SizeMessage(m);
    var a := new byte[size];
    var n := MarshalMessage(a, size, m);
    dAtA := a[..n];
    assert a[..] == EncodeMessage(m);
  }

  // ---------------------------------------------------------------------
  // Unmarshal.

  method ReadBytesAt(s: seq<byte>, at: nat) returns (r: Result<Read<seq<byte>>>)
    requires at <= |s|
    ensures r == ReadBytes(s, at)
  {
    var n := DecodeVarint(s, at);
    if n.Err? {
      return Err(n.error);
    }
    var byteLen, next := n.value.value, n.value.next;
    if byteLen >= I63 {
      return Err(InvalidLength);
    }
    var postIndex := next + byteLen;
    if postIndex >= I63 {
      return Err(InvalidLength);
    }
    if postIndex > |s| {
      return Err(UnexpectedEOF);
    }
    return Ok(Read(s[next..postIndex], postIndex));
  }

  lemma {:induction false} NumbersGoOn(s: seq<byte>, at: nat, post: nat)
    requires at < post && at <= |s|
    ensures Decode(s, at).Err? ==> ReadNumbers(s, at, post) == Err(Decode(s, at).error)
    ensures Decode(s, at).Ok? ==>
              var v := Decode(s, at).value;
              var r := ReadNumbers(s, v.next, post);
              ReadNumbers(s, at, post) == if r.Err? then r else Ok(Read([v.value] + r.value.value, r.value.next))
  {
  }

  /** `vs` have been read, and the loop goes on from `at`. */
  ghost predicate NumbersSoFar(vs: seq<nat>, rest: Result<Read<seq<nat>>>, all: Result<Read<seq<nat>>>) {
    all == if rest.Err? then rest else Ok(Read(vs + rest.value.value, rest.value.next))
  }

  lemma OneMoreNumber(vs: seq<nat>, v: nat, rest: Result<Read<seq<nat>>>, all: Result<Read<seq<nat>>>)
    requires NumbersSoFar(vs, if rest.Err? then rest else Ok(Read([v] + rest.value.value, rest.value.next)), all)
    ensures NumbersSoFar(vs + [v], rest, all)
  {
    if rest.Ok? {
      assert vs + ([v] + rest.value.value) == (vs + [v]) + rest.value.value;
    }
  }

  /** The packed loop. */
  method ReadNumbersAt(s: seq<byte>, start: nat, post: nat) returns (r: Result<Read<seq<nat>>>)
    requires start <= |s|
    ensures r == ReadNumbers(s, start, post)
  {
    var at, vs := start, [];
    ghost var all := ReadNumbers(s, start, post);
    assert all.Ok? ==> [] + all.value.value == all.value.value;
    while at < post
      invariant start <= at <= |s| && NumbersSoFar(vs, ReadNumbers(s, at, post), all)
      decreases |s| - at
    {
      NumbersGoOn(s, at, post);
      var v := DecodeVarint(s, at);
      if v.Err? {
        return Err(v.error);
      }
      OneMoreNumber(vs, v.value.value, ReadNumbers(s, v.value.next, post), all);
      vs := vs + [v.value.value];
      at := v.value.next;
    }
    assert vs + [] == vs;
    return Ok(Read(vs, at));
  }

  method SkipPayloadAt(s: seq<byte>, at: nat, wireType: nat) returns (r: Result<nat>)
    requires at <= |s|
    ensures r == SkipPayload(s, at, wireType)
  {
    if wireType == 0 {
      var v := DecodeVarint(s, at);
      return if v.Err? then Err(v.error) else Ok(v.value.next);
    } else if wireType == 1 {
      return Ok(at + 8);
    } else if wireType == 2 {
      var n := DecodeVarint(s, at);
      if n.Err? {
        return Err(n.error);
      }
      if n.value.value >= I63 || n.value.next + n.value.value >= I63 {
        return Err(InvalidLength);
      }
      return Ok(n.value.next + n.value.value);
    } else if wireType == 3 || wireType == 4 {
      return Ok(at);
    } else if wireType == 5 {
      return Ok(at + 4);
    }
    return Err(IllegalWireType);
  }

  /** skipRaft: past one field, or one whole group. */
  method SkipRaft(s: seq<byte>) returns (r: Result<nat>)
    ensures r == SkipFrom(s, 0, 0)
  {
    var at: nat, depth: nat := 0, 0;
    while at < |s|
      invariant SkipFrom(s, at, depth) == SkipFrom(s, 0, 0)
      decreases |s| - at
    {
      var wire := DecodeVarint(s, at);
      if wire.Err? {
        return Err(wire.error);
      }
      var wireType := wire.value.value % 8;
      var end := SkipPayloadAt(s, wire.value.next, wireType);
      if end.Err? {
        return Err(end.error);
      }
      if wireType == 3 {
        depth := depth + 1;
      } else if wireType == 4 {
        if depth == 0 {
          return Err(UnexpectedEndOfGroup);
        }
        depth := depth - 1;
      }
      at := end.value;
      if depth == 0 {
        return Ok(at);
      }
    }
    return Err(UnexpectedEOF);
  }

  method SkipUnknown(s: seq<byte>, at: nat) returns (r: Result<Read<Option<Field>>>)
    requires at <= |s|
    ensures r == Skip(s, at)
  {
    var skippy := SkipRaft(s[at..]);
    if skippy.Err? {
      return Err(skippy.error);
    }
    if at + skippy.value >= I63 {
      return Err(InvalidLength);
    }
    if at + skippy.value > |s| {
      return Err(UnexpectedEOF);
    }
    return Ok(Read(None, at + skippy.value));
  }

  method ReadPackedAt(s: seq<byte>, at: nat) returns (r: Result<Read<seq<nat>>>)
    requires at <= |s|
    ensures r == ReadPacked(s, at)
  {
    var packed := ReadBytesAt(s, at);
    if packed.Err? {
      return Err(packed.error);
    }
    r := ReadNumbersAt(s, packed.value.next - |packed.value.value|, packed.value.next);
  }

  method ReadKnown(w: Wire, s: seq<byte>, next: nat, num: nat, wireType: nat) returns (r: Result<Read<Option<Field>>>)
    requires next <= |s| && KindOf(w, num) != UnknownKind
    ensures r == match KindOf(w, num)
                 case NumberKind =>
                   if wireType != 0 then Err(WrongWireType) else AsNumber(num, Decode(s, next))
                 case NumbersKind =>
                   if wireType == 0 then AsNumber(num, Decode(s, next))
                   else if wireType == 2 then AsNumbers(num, ReadPacked(s, next))
                   else Err(WrongWireType)
                 case _ =>
                   if wireType != 2 then Err(WrongWireType) else AsBlob(num, ReadBytes(s, next))
  {
    var kind := KindOf(w, num);
    if wireType == 0 && kind != BlobKind {
      var v := DecodeVarint(s, next);
      return AsNumber(num, v);
    } else if wireType == 2 && kind == NumbersKind {
      var vs := ReadPackedAt(s, next);
      return AsNumbers(num, vs);
    } else if wireType == 2 && kind == BlobKind {
      var data := ReadBytesAt(s, next);
      return AsBlob(num, data);
    }
    return Err(WrongWireType);
  }

  method ReadField(w: Wire, s: seq<byte>, at: nat) returns (r: Result<Read<Option<Field>>>)
    requires at < |s|
    ensures r == NextField(w, s, at)
  {
    var wire := DecodeVarint(s, at);
    if wire.Err? {
      return Err(wire.error);
    }
    var fieldNum, wireType := ToInt32(wire.value.value / 8), wire.value.value % 8;
    if wireType == 4 {
      return Err(EndGroup);
    }
    if fieldNum <= 0 {
      return Err(IllegalTag);
    }
    if KindOf(w, fieldNum) == UnknownKind {
      r := SkipUnknown(s, at);
    } else {
      r := ReadKnown(w, s, wire.value.next, fieldNum, wireType);
    }
  }

  method PutField(w: Wire, f: Field) returns (r: Result<Wire>)
    requires Knows(w, f)
    ensures r == Put(w, f)
    decreases if f.Blob? then |f.data| else 0, 1
  {
    if f.Blob? {
      if Nested(w, f.num).None? {
        return Ok(PutBytes(w, f.num, f.data));
      }
      var x := Unmarshal(f.data, Nested(w, f.num).value);
      if x.Err? {
        return Err(x.error);
      }
      return Ok(PutNested(w, f.num, x.value));
    }
    if KindOf(w, f.num) == NumberKind {
      return Ok(PutNumber(w, f.num, f.v));
    }
    return Ok(ConfStateW(PutNumbers(w.c, f.num, Listed(f))));
  }

  /** Unmarshal: no byte outside the input is ever read, whatever the input. */
  method Unmarshal(dAtA: seq<byte>, w0: Wire) returns (r: Result<Wire>)
    ensures r == DecodeWire(dAtA, 0, w0)
    decreases |dAtA|, 0
  {
    var w, iNdEx: nat := w0, 0;
    while iNdEx < |dAtA|
      invariant iNdEx <= |dAtA| && DecodeWire(dAtA, iNdEx, w) == DecodeWire(dAtA, 0, w0)
      decreases |dAtA| - iNdEx
    {
      var f := ReadField(w, dAtA, iNdEx);
      if f.Err? {
        return Err(f.error);
      }
      iNdEx := f.value.next;
      if f.value.value.Some? {
        var w1 := PutField(w, f.value.value.value);
        if w1.Err? {
          return Err(w1.error);
        }
        w := w1.value;
      }
    }
    return Ok(w);
  }

  /** Marshal and then Unmarshal returns the message. */
  method Transfer(m: WireMessage) returns (r: Result<Wire>)
    requires WfMessage(m) && |EncodeMessage(m)| < I63
    ensures r == Ok(MessageW(m))
  {
    var dAtA := Marshal(m);
    r := Unmarshal(dAtA, MessageW(NO_MESSAGE));
    MessageBack(m);
  }
}
