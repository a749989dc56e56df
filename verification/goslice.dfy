/** The unstable tail over shared arrays: what was handed out never changes. */
module SharedTail {
  import opened RaftTypes
  import opened TwoPartLog

  /** A Go slice: `len` cells of `arr` from `off` on, with room to grow in place up to `cap`. */
  datatype GoSlice = GoSlice(arr: array<Entry>, off: nat, len: nat, cap: nat)

  ghost predicate SliceOk(s: GoSlice) { s.len <= s.cap && s.off + s.cap <= s.arr.Length }

  ghost function Contents(s: GoSlice): (c: seq<Entry>)
    requires SliceOk(s)
    reads s.arr
    ensures |c| == s.len
  {
    s.arr[s.off..s.off + s.len]
  }

  /** Growing `s` in place cannot touch what `v` shows. */
  ghost predicate Below(v: GoSlice, s: GoSlice) { v.arr == s.arr ==> v.off + v.len <= s.off + s.len }

  /** `s[lo:hi:max]`. */
  function SubSlice(s: GoSlice, lo: nat, hi: nat, max: nat): GoSlice
    requires lo <= hi <= max <= s.cap
  {
    GoSlice(s.arr, s.off + lo, hi - lo, max - lo)
  }

  lemma SubSliceShows(s: GoSlice, lo: nat, hi: nat, max: nat)
    requires SliceOk(s) && lo <= hi <= s.len && hi <= max <= s.cap
    ensures SliceOk(SubSlice(s, lo, hi, max)) && Below(SubSlice(s, lo, hi, max), s)
    ensures Contents(SubSlice(s, lo, hi, max)) == Contents(s)[lo..hi]
  {
    var a, b := Contents(SubSlice(s, lo, hi, max)), Contents(s)[lo..hi];
    assert forall k :: 0 <= k < hi - lo ==> a[k] == s.arr[s.off + lo + k] == b[k];
  }

  lemma PrefixOfRange(s: seq<Entry>, lo: nat, hi: nat, n: nat)
    requires lo <= hi <= |s| && n <= hi - lo
    ensures s[lo..hi][..n] == s[lo..lo + n]
  {
  }

  /** Writes `ents` into consecutive cells. */
  method Fill(arr: array<Entry>, at: nat, ents: seq<Entry>)
    requires at + |ents| <= arr.Length
    modifies arr
    ensures arr[at..at + |ents|] == ents
    ensures forall k :: 0 <= k < arr.Length && !(at <= k < at + |ents|) ==> arr[k] == old(arr[k])
  {
    var i := 0;
    while i < |ents|
      invariant 0 <= i <= |ents|
      invariant forall k :: 0 <= k < i ==> arr[at + k] == ents[k]
      invariant forall k :: 0 <= k < arr.Length && !(at <= k < at + i) ==> arr[k] == old(arr[k])
    {
      arr[at + i] := ents[i];
      i := i + 1;
    }
  }

  /** append: in place while there is room, else into a new array of any sufficient size. */
  method GoAppend(s: GoSlice, ents: seq<Entry>, growth: nat) returns (r: GoSlice)
    requires SliceOk(s)
    modifies s.arr
    ensures SliceOk(r) && Contents(r) == old(Contents(s)) + ents
    ensures s.len + |ents| <= s.cap ==> r == s.(len := s.len + |ents|)
    ensures s.len + |ents| > s.cap ==> fresh(r.arr)
    ensures forall k :: 0 <= k < s.arr.Length && !(s.off + s.len <= k < s.off + s.cap) ==> s.arr[k] == old(s.arr[k])
    ensures s.len == s.cap ==> s.arr[..] == old(s.arr[..])
  {
    if s.len + |ents| <= s.cap {
      Fill(s.arr, s.off + s.len, ents);
      r := s.(len := s.len + |ents|);
      assert Contents(r) == Contents(s) + ents;
    } else {
      var was := s.arr[s.off..s.off + s.len];
      var n := s.len + |ents|;
      var arr := new Entry[n + growth](_ => DUMMY);
      Fill(arr, 0, was + ents);
      r := GoSlice(arr, 0, n, n + growth);
    }
  }

  /** The case of truncateAndAppend that takes over the caller's slice. */
  predicate Replaces(u: Unstable, from: nat) {
    from <= u.offset && from != u.offset + |u.entries|
  }

  class SharedUnstable {
    var entries: GoSlice
    var offset: nat
    var offsetInProgress: nat
    /** Every slice ever handed out, with what it showed at that moment. */
    ghost var shown: map<GoSlice, seq<Entry>>

    /** The last clause is the point: whoever holds such a slice still sees the same entries. */
    ghost predicate Valid()
      reads this, entries.arr, set v | v in shown :: v.arr
    {
      && SliceOk(entries) && offset >= 1
      && Contiguous(Contents(entries), offset)
      && offset <= offsetInProgress <= offset + entries.len
      && forall v :: v in shown ==> SliceOk(v) && Below(v, entries) && Contents(v) == shown[v]
    }

    ghost function Value(): Unstable
      requires SliceOk(entries)
      reads this, entries.arr
    {
      Unstable(Contents(entries), offset, offsetInProgress)
    }

    constructor (offset: nat)
      requires offset >= 1
      ensures Valid() && shown == map[] && Value() == Unstable([], offset, offset)
      ensures fresh(entries.arr)
    {
      var none := new Entry[0];
      entries := GoSlice(none, 0, 0, 0);
      this.offset, offsetInProgress := offset, offset;
      shown := map[];
    }

    /** nextEntries; None is the nil slice. The result keeps the spare capacity of the tail. */
    method NextEntries() returns (v: Option<GoSlice>)
      requires Valid()
      modifies this`shown
      ensures Valid() && Value() == old(Value())
      ensures v.None? <==> offsetInProgress == offset + entries.len
      ensures v.Some? ==> SliceOk(v.value) && Contents(v.value) == Value().entries[offsetInProgress - offset..]
      ensures shown == if v.Some? then old(shown)[v.value := Contents(v.value)] else old(shown)
    {
      var inProgress := offsetInProgress - offset;
      if entries.len == inProgress {
        return None;
      }
      SubSliceShows(entries, inProgress, entries.len, entries.cap);
      v := Some(SubSlice(entries, inProgress, entries.len, entries.cap));
      Show(v.value);
    }

    /** slice, with the capacity cut to the length. */
    method Slice(lo: nat, hi: nat) returns (v: GoSlice)
      requires Valid() && offset <= lo <= hi <= offset + entries.len
      modifies this`shown
      ensures Valid() && Value() == old(Value())
      ensures SliceOk(v) && v.cap == v.len && Below(v, entries) && Contents(v) == Value().entries[lo - offset..hi - offset]
      ensures shown == old(shown)[v := Contents(v)]
    {
      hide Below, Contents;
      SubSliceShows(entries, lo - offset, hi - offset, hi - offset);
      v := SubSlice(entries, lo - offset, hi - offset, hi - offset);
      Show(v);
    }

    /** The unstable branch of raftLog.slice: cut to `maxSize`, and again to its own capacity. */
    method LimitedSlice(lo: nat, hi: nat, maxSize: nat) returns (v: GoSlice)
      requires Valid() && offset <= lo <= hi <= offset + entries.len
      modifies this`shown
      ensures Valid() && Value() == old(Value())
      ensures SliceOk(v) && v.cap == v.len
      ensures Contents(v) == LimitSize(Value().entries[lo - offset..hi - offset], maxSize)
      ensures shown == old(shown)[v := Contents(v)]
    {
      hide Below, Contents, LimitSize;
      var n := LimitedLength(lo, hi, maxSize);
      PrefixOfRange(Value().entries, lo - offset, hi - offset, n);
      v := Slice(lo, lo + n);
    }

    /** limitSize on the range: how many entries it keeps. */
    method LimitedLength(lo: nat, hi: nat, maxSize: nat) returns (n: nat)
      requires Valid() && offset <= lo <= hi <= offset + entries.len
      ensures n <= hi - lo
      ensures Value().entries[lo - offset..hi - offset][..n] == LimitSize(Value().entries[lo - offset..hi - offset], maxSize)
    {
      var at := entries.off + (lo - offset);
      SubSliceShows(entries, lo - offset, hi - offset, hi - offset);
      var r := LimitSizeLoop(entries.arr[at..at + (hi - lo)], maxSize);
      LimitSizeIsLongest(Value().entries[lo - offset..hi - offset], maxSize);
      n := |r|;
    }

    /** Records that `v` is handed out. */
    ghost method Show(v: GoSlice)
      requires Valid() && SliceOk(v) && Below(v, entries)
      modifies this`shown
      ensures Valid() && Value() == old(Value()) && shown == old(shown)[v := Contents(v)]
    {
      shown := shown[v := Contents(v)];
    }

    /**
     * truncateAndAppend. A caller whose slice replaces the tail gives its array away: nobody was shown
     * cells of it past the slice. AppendAbove has no such case.
     */
    method TruncateAndAppend(ents: GoSlice, growth: nat)
      requires Valid() && SliceOk(ents) && ents.len > 0
      requires 1 <= Contents(ents)[0].index <= offset + entries.len
      requires Contiguous(Contents(ents), Contents(ents)[0].index)
      requires Replaces(Value(), Contents(ents)[0].index) ==> forall v :: v in shown ==> Below(v, ents)
      modifies this, entries.arr
      ensures Valid() && shown == old(shown)
      ensures Value() == TwoPartLog.TruncateAndAppend(old(Value()), old(Contents(ents)))
    {
      var news := ents.arr[ents.off..ents.off + ents.len];
      var from := news[0].index;
      if from == offset + entries.len {
        AppendInPlace(news, growth);
      } else if from <= offset {
        entries := ents;
        offset := from;
        offsetInProgress := offset;
      } else {
        CutAndAppend(news, from, growth);
      }
    }

    /**
     * The call of a bootstrapped node, above its commit index: what it appends is copied, so all slices
     * handed out keep showing the same entries, and the tail keeps starting at 1.
     */
    method AppendAbove(ents: GoSlice, committed: nat, growth: nat)
      requires Valid() && SliceOk(ents) && ents.len > 0 && offset == 1 && (committed == 0 ==> entries.len == 0)
      requires committed < Contents(ents)[0].index <= 1 + entries.len
      requires Contiguous(Contents(ents), Contents(ents)[0].index)
      modifies this, entries.arr
      ensures Valid() && shown == old(shown) && offset == 1
      ensures Value() == TwoPartLog.TruncateAndAppend(old(Value()), old(Contents(ents)))
    {
      TruncateAndAppend(ents, growth);
    }

    method AppendInPlace(news: seq<Entry>, growth: nat)
      requires Valid() && Contiguous(news, offset + entries.len)
      modifies this`entries, entries.arr
      ensures Valid() && shown == old(shown)
      ensures Value() == old(Value()).(entries := old(Value()).entries + news)
    {
      entries := GoAppend(entries, news, growth);
    }

    method CutAndAppend(news: seq<Entry>, from: nat, growth: nat)
      requires Valid() && news != [] && offset < from < offset + entries.len && Contiguous(news, from)
      modifies this`entries, this`offsetInProgress, entries.arr
      ensures Valid() && shown == old(shown)
      ensures Value() == Unstable(old(Value()).entries[..from - offset] + news, offset, Min(old(offsetInProgress), from))
    {
      SubSliceShows(entries, 0, from - offset, from - offset);
      var keep := SubSlice(entries, 0, from - offset, from - offset);
      entries := GoAppend(keep, news, growth);
      offsetInProgress := Min(offsetInProgress, from);
    }
  }
}
