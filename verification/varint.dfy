/** Base-128 varints: seven bits a byte, lowest first, the high bit set on all but the last. */
module Varint {
  import opened RaftTypes

  /** One more than the largest int. */
  const I63: nat := 0x8000_0000_0000_0000

  datatype Error =
    | IntOverflow | UnexpectedEOF | InvalidLength | UnexpectedEndOfGroup
    | IllegalWireType | WrongWireType | EndGroup | IllegalTag

  datatype Result<+T> = Ok(value: T) | Err(error: Error)

  /** A decoded value and the index after it. */
  datatype Read<+T> = Read(value: T, next: nat)

  function Pow128(k: nat): (p: nat)
    ensures p >= 1
  {
    if k == 0 then 1 else 128 * Pow128(k - 1)
  }

  function Encode(v: nat): (s: seq<byte>)
    ensures |s| == Sov(v)
  {
    if v < 128 then [v] else [v % 128 + 128] + Encode(v / 128)
  }

  /** The decoding loop from index `at` on, with `k` bytes read and `acc` accumulated in 64 bits. */
  function DecodeFrom(s: seq<byte>, at: nat, k: nat, acc: nat): (r: Result<Read<nat>>)
    requires at <= |s| && acc < U64
    ensures r.Ok? ==> at < r.value.next <= |s| && r.value.value < U64
    decreases |s| - at
  {
    if 7 * k >= 64 then Err(IntOverflow)
    else if at >= |s| then Err(UnexpectedEOF)
    else
      var acc1 := (acc + s[at] % 128 * Pow128(k)) % U64;
      if s[at] < 128 then Ok(Read(acc1, at + 1)) else DecodeFrom(s, at + 1, k + 1, acc1)
  }

  function Decode(s: seq<byte>, at: nat): (r: Result<Read<nat>>)
    requires at <= |s|
    ensures r.Ok? ==> at < r.value.next <= |s| && r.value.value < U64
  {
    DecodeFrom(s, at, 0, 0)
  }

  // ---------------------------------------------------------------------
  // Round trip.

  lemma PowBound(k: nat)
    ensures k < 10 ==> Pow128(k) <= 0x8000_0000_0000_0000
    ensures k >= 10 ==> Pow128(k) > U64
  {
    if k <= 10 {
      assert Pow128(0) == 1;
      assert Pow128(1) == 128;
      assert Pow128(2) == 128 * 128;
      assert Pow128(3) == 128 * 128 * 128;
      assert Pow128(4) == 128 * 128 * 128 * 128;
      assert Pow128(5) == 128 * 128 * 128 * 128 * 128;
      assert Pow128(6) == 128 * 128 * 128 * 128 * 128 * 128;
      assert Pow128(7) == 128 * Pow128(6);
      assert Pow128(8) == 128 * Pow128(7);
      assert Pow128(9) == 128 * Pow128(8);
      assert Pow128(10) == 128 * Pow128(9);
    } else {
      PowBound(k - 1);
    }
  }

  lemma Split128(v: nat, p: nat)
    ensures v % 128 * p + v / 128 * (128 * p) == v * p
  {
    assert v == v / 128 * 128 + v % 128;
    assert v * p == (v / 128 * 128 + v % 128) * p == v / 128 * 128 * p + v % 128 * p;
  }

  /** `bytes` stand in `s` at index `at`. */
  ghost predicate StandsAt(s: seq<byte>, at: nat, bytes: seq<byte>) {
    at + |bytes| <= |s| && forall k {:trigger bytes[k]} :: 0 <= k < |bytes| ==> s[at + k] == bytes[k]
  }

  lemma StandsTail(s: seq<byte>, at: nat, a: byte, rest: seq<byte>)
    requires StandsAt(s, at, [a] + rest)
    ensures s[at] == a && StandsAt(s, at + 1, rest)
  {
    var w := [a] + rest;
    assert w[0] == a;
    forall k | 0 <= k < |rest| ensures s[at + 1 + k] == rest[k] {
      assert w[k + 1] == rest[k];
    }
  }

  /** One turn of the decoding loop that does not overflow. */
  lemma DecodeStep(s: seq<byte>, at: nat, k: nat, acc: nat)
    requires at < |s| && acc < U64 && k < 10 && acc + s[at] % 128 * Pow128(k) < U64
    ensures var acc1 := acc + s[at] % 128 * Pow128(k);
            DecodeFrom(s, at, k, acc)
            == if s[at] < 128 then Ok(Read(acc1, at + 1)) else DecodeFrom(s, at + 1, k + 1, acc1)
  {
    var acc1 := acc + s[at] % 128 * Pow128(k);
    assert acc1 % U64 == acc1;
  }

  lemma {:induction false} DecodesFrom(s: seq<byte>, at: nat, v: nat, k: nat, acc: nat)
    requires StandsAt(s, at, Encode(v))
    requires acc + v * Pow128(k) < U64 && k < 10 && (k > 0 ==> v > 0)
    ensures at <= |s| && acc < U64
    ensures DecodeFrom(s, at, k, acc) == Ok(Read(acc + v * Pow128(k), at + Sov(v)))
    decreases v
  {
    hide DecodeFrom;
    var p := Pow128(k);
    MulNat(v, p);
    if v < 128 {
      StandsTail(s, at, v, []);
      DecodeStep(s, at, k, acc);
    } else {
      DecodesMore(s, at, v, k, acc);
      DecodesFrom(s, at + 1, v / 128, k + 1, acc + v % 128 * p);
    }
  }

  lemma DecodesMore(s: seq<byte>, at: nat, v: nat, k: nat, acc: nat)
    requires StandsAt(s, at, Encode(v)) && v >= 128
    requires acc + v * Pow128(k) < U64 && k < 10
    ensures var acc1 := acc + v % 128 * Pow128(k);
            && at < |s| && k + 1 < 10 && acc1 < U64 && StandsAt(s, at + 1, Encode(v / 128))
            && acc1 + v / 128 * Pow128(k + 1) == acc + v * Pow128(k)
            && DecodeFrom(s, at, k, acc) == DecodeFrom(s, at + 1, k + 1, acc1)
  {
    var p := Pow128(k);
    StandsTail(s, at, v % 128 + 128, Encode(v / 128));
    Split128(v, p);
    MulBound(v / 128, 128 * p);
    MulNat(v % 128, p);
    assert Pow128(k + 1) == 128 * p;
    PowBound(k + 1);
    assert s[at] % 128 == v % 128;
    DecodeStep(s, at, k, acc);
  }

  lemma MulNat(a: nat, b: nat)
    ensures a * b >= 0
  {
  }

  lemma MulBound(a: nat, b: nat)
    requires a >= 1
    ensures a * b >= b
  {
  }

  /** Every uint64 survives, wherever it stands. */
  lemma DecodesBack(s: seq<byte>, at: nat, v: nat)
    requires v < U64 && StandsAt(s, at, Encode(v))
    ensures at <= |s| && Decode(s, at) == Ok(Read(v, at + Sov(v)))
  {
    assert v * Pow128(0) == v;
    DecodesFrom(s, at, v, 0, 0);
  }

  // ---------------------------------------------------------------------
  // The size formula.

  function BitLen(x: nat): nat {
    if x == 0 then 0 else 1 + BitLen(x / 2)
  }

  lemma BitLenOf128(x: nat)
    requires x >= 128
    ensures BitLen(x) == 7 + BitLen(x / 128)
  {
    var x1 := x / 2;
    var x2 := x1 / 2;
    var x3 := x2 / 2;
    var x4 := x3 / 2;
    var x5 := x4 / 2;
    var x6 := x5 / 2;
    assert BitLen(x) == 1 + BitLen(x1) && BitLen(x1) == 1 + BitLen(x2) && BitLen(x2) == 1 + BitLen(x3);
    assert BitLen(x3) == 1 + BitLen(x4) && BitLen(x4) == 1 + BitLen(x5) && BitLen(x5) == 1 + BitLen(x6);
    assert x6 / 2 == x / 128;
  }

  function Pow2(k: nat): nat { if k == 0 then 1 else 2 * Pow2(k - 1) }

  lemma {:induction false} BitLenAtMost(x: nat, k: nat)
    requires x < Pow2(k)
    ensures BitLen(x) <= k
  {
    if x > 0 {
      BitLenAtMost(x / 2, k - 1);
    }
  }

  /** sovRaft: `x | 1` differs from `x` only at even numbers, and in bit length only at 0. */
  function SovRaft(x: nat): nat {
    (BitLen(if x % 2 == 0 then x + 1 else x) + 6) / 7
  }

  lemma {:induction false} SovRaftIsLength(x: nat)
    ensures SovRaft(x) == Sov(x) == |Encode(x)|
  {
    var y := if x % 2 == 0 then x + 1 else x;
    if x < 128 {
      BitLenSmall(y);
    } else {
      BitLenOf128(y);
      SovRaftIsLength(x / 128);
      BitLenOr(x / 128);
      assert y / 128 == x / 128;
    }
  }

  lemma BitLenOr(x: nat)
    requires x >= 1
    ensures BitLen(if x % 2 == 0 then x + 1 else x) == BitLen(x)
  {
    assert x % 2 == 0 ==> (x + 1) / 2 == x / 2;
  }

  lemma BitLenSmall(y: nat)
    requires 1 <= y < 128
    ensures 1 <= BitLen(y) <= 7
  {
    assert Pow2(3) == 8 && Pow2(5) == 32 && Pow2(7) == 128;
    BitLenAtMost(y, 7);
  }

  // ---------------------------------------------------------------------
  // The loops.

  /** `bytes` put into `s` so that they end at index `i`. */
  ghost function Write(s: seq<byte>, i: nat, bytes: seq<byte>): (t: seq<byte>)
    requires |bytes| <= i <= |s|
    ensures |t| == |s|
  {
    s[..i - |bytes|] + (bytes + s[i..])
  }

  /** Writing in front of what was written. */
  lemma WriteJoins(s: seq<byte>, i: nat, a: seq<byte>, b: seq<byte>)
    requires |a| + |b| <= i <= |s|
    ensures Write(Write(s, i, a), i - |a|, b) == Write(s, i, b + a)
  {
    var t := Write(s, i, a);
    var j := i - |a|;
    assert t[..j - |b|] == s[..j - |b|];
    assert t[j..] == a + s[i..];
    assert b + (a + s[i..]) == (b + a) + s[i..];
  }

  /** The first `n` of `bytes` have been put into `s` from `base` on, which made it `t`. */
  ghost predicate Filled(s: seq<byte>, t: seq<byte>, base: nat, n: nat, bytes: seq<byte>) {
    && |t| == |s| && n <= |bytes| && base + |bytes| <= |s|
    && (forall k :: 0 <= k < n ==> t[base + k] == bytes[k])
    && (forall k {:trigger t[k]} :: 0 <= k < |s| && !(base <= k < base + n) ==> t[k] == s[k])
  }

  lemma NoneFilled(s: seq<byte>, base: nat, bytes: seq<byte>)
    requires base + |bytes| <= |s|
    ensures Filled(s, s, base, 0, bytes)
  {
  }

  lemma FillNext(s: seq<byte>, t: seq<byte>, base: nat, n: nat, bytes: seq<byte>)
    requires Filled(s, t, base, n, bytes) && n < |bytes|
    ensures Filled(s, t[base + n := bytes[n]], base, n + 1, bytes)
  {
  }

  lemma FilledIsWrite(s: seq<byte>, t: seq<byte>, base: nat, bytes: seq<byte>)
    requires Filled(s, t, base, |bytes|, bytes)
    ensures t == Write(s, base + |bytes|, bytes)
  {
    var w := Write(s, base + |bytes|, bytes);
    forall k | 0 <= k < |s| ensures t[k] == w[k] {
      if base <= k < base + |bytes| {
        assert bytes[k - base] == t[base + (k - base)];
      }
    }
  }

  lemma EncodeStep(v: nat, n: nat, x: nat)
    requires n <= |Encode(v)| && Encode(v)[n..] == Encode(x)
    ensures n < |Encode(v)| && Encode(v)[n] == (if x < 128 then x else x % 128 + 128)
    ensures x >= 128 ==> Encode(v)[n + 1..] == Encode(x / 128)
    ensures x < 128 ==> n + 1 == |Encode(v)|
  {
    assert Encode(v)[n] == Encode(v)[n..][0];
    assert x >= 128 ==> Encode(v)[n + 1..] == Encode(v)[n..][1..];
  }

  /** The bytes before `at` are written, and those of `x` remain. */
  ghost predicate Encoding(s: seq<byte>, t: seq<byte>, base: nat, at: nat, v: nat, x: nat) {
    && base <= at < base + |Encode(v)| && Encode(v)[at - base..] == Encode(x)
    && Filled(s, t, base, at - base, Encode(v))
  }

  lemma EncodeNext(s: seq<byte>, t: seq<byte>, base: nat, at: nat, v: nat, x: nat)
    requires Encoding(s, t, base, at, v, x) && x >= 128
    ensures at < |t| && Encoding(s, t[at := x % 128 + 128], base, at + 1, v, x / 128)
  {
    hide Encode;
    EncodeStep(v, at - base, x);
    FillNext(s, t, base, at - base, Encode(v));
    assert Encode(v)[at + 1 - base..] == Encode(x / 128);
    EncodeNonEmpty(x / 128);
  }

  lemma EncodeNonEmpty(x: nat)
    ensures |Encode(x)| >= 1
  {
  }

  lemma EncodeLast(s: seq<byte>, t: seq<byte>, base: nat, at: nat, v: nat, x: nat)
    requires Encoding(s, t, base, at, v, x) && x < 128
    ensures at < |t| && t[at := x] == Write(s, base + |Encode(v)|, Encode(v))
  {
    hide Encode, Write;
    EncodeStep(v, at - base, x);
    FillNext(s, t, base, at - base, Encode(v));
    FilledIsWrite(s, t[at := x], base, Encode(v));
  }

  /** encodeVarintRaft: the place is found first, then the bytes are filled in. */
  method EncodeVarint(a: array<byte>, offset: nat, v: nat) returns (base: nat)
    requires Sov(v) <= offset <= a.Length
    modifies a
    ensures base == offset - Sov(v) && a[..] == Write(old(a[..]), offset, Encode(v))
  {
    hide Encoding, Encode, Write;
    base := offset - Sov(v);
    var at: nat, x: nat := base, v;
    EncodeStart(a[..], base, v);
    while x >= 128
      invariant Encoding(old(a[..]), a[..], base, at, v, x)
      decreases x
    {
      EncodeNext(old(a[..]), a[..], base, at, v, x);
      PutAt(a, at, x % 128 + 128);
      x := x / 128;
      at := at + 1;
    }
    EncodeLast(old(a[..]), a[..], base, at, v, x);
    PutAt(a, at, x);
  }

  lemma EncodeStart(s: seq<byte>, base: nat, v: nat)
    requires base + Sov(v) <= |s|
    ensures Encoding(s, s, base, base, v, v)
  {
  }

  method PutAt(a: array<byte>, at: nat, b: byte)
    requires at < a.Length
    modifies a
    ensures a[..] == old(a[..])[at := b]
  {
    a[at] := b;
  }

  /** The decoding loop that is repeated for every number in the generated code. */
  method DecodeVarint(s: seq<byte>, start: nat) returns (r: Result<Read<nat>>)
    requires start <= |s|
    ensures r == Decode(s, start)
  {
    var at: nat, acc: nat, unit: nat := start, 0, 1;
    var shift: nat, k: nat := 0, 0;
    while true
      invariant start <= at <= |s| && shift == 7 * k && acc < U64 && unit == Pow128(k)
      invariant DecodeFrom(s, at, k, acc) == Decode(s, start)
      decreases |s| - at
    {
      if shift >= 64 {
        return Err(IntOverflow);
      }
      if at >= |s| {
        return Err(UnexpectedEOF);
      }
      var b := s[at];
      at := at + 1;
      acc := (acc + b % 128 * unit) % U64;
      if b < 128 {
        return Ok(Read(acc, at));
      }
      shift, k, unit := shift + 7, k + 1, 128 * unit;
    }
  }
}
