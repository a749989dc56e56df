/** The log in two parts: entries in storage, shadowed by the unstable tail in memory. */
module TwoPartLog {
  import opened RaftTypes
  import opened LogSpec

  const DUMMY := Entry(0, 0, EntryNormal, None)

  function Min(a: nat, b: nat): nat { if a <= b then a else b }

  // ---------------------------------------------------------------------
  // Storage: ents[i] is log entry i, ents[0] the dummy.

  ghost predicate StorageOk(st: seq<Entry>) {
    |st| >= 1 && st[0] == DUMMY && Contiguous(st, 0)
  }

  /** MemoryStorage.Append; None where the source panics about a missing entry. */
  function StorageAppend(st: seq<Entry>, entries: seq<Entry>): Option<seq<Entry>>
    requires |st| >= 1
  {
    if entries == [] then Some(st)
    else
      var first := st[0].index + 1;
      if entries[0].index + |entries| - 1 < first then Some(st)
      else
        var es := if first > entries[0].index then entries[first - entries[0].index..] else entries;
        var offset := es[0].index - st[0].index;
        if 0 <= offset <= |st| then Some(st[..offset] + es) else None
  }

  class MemoryStorage {
    var ents: seq<Entry>

    ghost predicate Valid() reads this { StorageOk(ents) }

    constructor ()
      ensures Valid() && ents == [DUMMY]
    {
      ents := [DUMMY];
    }

    function LastIndex(): nat
      requires Valid()
      reads this
    {
      ents[0].index + |ents| - 1
    }

    method Append(entries: seq<Entry>)
      requires Valid() && StorageAppend(ents, entries).Some?
      requires entries != [] ==> Contiguous(entries, entries[0].index)
      modifies this
      ensures Valid()
      ensures ents == StorageAppend(old(ents), entries).value
    {
      if |entries| == 0 {
        return;
      }
      var es := entries;
      var first := ents[0].index + 1;
      var last := es[0].index + |es| - 1;
      if last < first {
        return;
      }
      if first > es[0].index {
        es := es[first - es[0].index..];
      }
      var offset := es[0].index - ents[0].index;
      if |ents| > offset {
        ents := ents[..offset] + es;
      } else {
        ents := ents + es;
      }
    }
  }

  // ---------------------------------------------------------------------
  // The unstable tail and the queries over both parts.

  /** entries[i] is log entry offset + i; those before offsetInProgress are being written. */
  datatype Unstable = Unstable(entries: seq<Entry>, offset: nat, offsetInProgress: nat)

  /** Both parts fit together into one log. */
  ghost predicate PartsOk(st: seq<Entry>, u: Unstable) {
    && StorageOk(st)
    && 1 <= u.offset <= |st|
    && Contiguous(u.entries, u.offset)
    && u.offset <= u.offsetInProgress <= u.offset + |u.entries|
    && (u.entries == [] ==> |st| == u.offset)
  }

  /** The whole log that the two parts stand for. */
  ghost function Whole(st: seq<Entry>, u: Unstable): (log: seq<Entry>)
    requires PartsOk(st, u)
    ensures Contiguous(log, 1) && |log| == u.offset - 1 + |u.entries|
  {
    st[1..u.offset] + u.entries
  }

  function MaybeTerm(u: Unstable, i: nat): Option<nat> {
    if i < u.offset then None
    else if u.entries == [] then None
    else if i > u.offset + |u.entries| - 1 then None
    else Some(u.entries[i - u.offset].term)
  }

  function LastIn(st: seq<Entry>, u: Unstable): nat
    requires |st| >= 1
  {
    if u.entries != [] then u.offset + |u.entries| - 1 else st[0].index + |st| - 1
  }

  /** raftLog.term: the tail first, then the bounds, then storage. */
  function TermIn(st: seq<Entry>, u: Unstable, i: nat): Option<nat>
    requires |st| >= 1
  {
    var t := MaybeTerm(u, i);
    if t.Some? then t
    else if i + 1 < st[0].index + 1 then None
    else if i > LastIn(st, u) then None
    else if i < st[0].index then None
    else if i - st[0].index >= |st| then None
    else Some(st[i - st[0].index].term)
  }

  lemma TermInExact(st: seq<Entry>, u: Unstable, i: nat)
    requires PartsOk(st, u)
    ensures TermIn(st, u, i) == TermOf(Whole(st, u), i)
    ensures LastIn(st, u) == |Whole(st, u)|
  {
  }

  /** truncateAndAppend: extend, replace, or cut and extend the tail. */
  function TruncateAndAppend(u: Unstable, ents: seq<Entry>): Unstable
    requires ents != [] && 1 <= ents[0].index <= u.offset + |u.entries|
  {
    var from := ents[0].index;
    if from == u.offset + |u.entries| then u.(entries := u.entries + ents)
    else if from <= u.offset then Unstable(ents, from, from)
    else u.(entries := u.entries[..from - u.offset] + ents,
            offsetInProgress := Min(u.offsetInProgress, from))
  }

  lemma TruncateAndAppendSplices(st: seq<Entry>, u: Unstable, ents: seq<Entry>)
    requires PartsOk(st, u)
    requires ents != [] && 1 <= ents[0].index <= u.offset + |u.entries| && Contiguous(ents, ents[0].index)
    ensures PartsOk(st, TruncateAndAppend(u, ents))
    ensures Whole(st, TruncateAndAppend(u, ents)) == Splice(Whole(st, u), ents[0].index, ents)
    // entries already handed to storage that the splice keeps stay marked as in progress
    ensures TruncateAndAppend(u, ents).offsetInProgress == Min(u.offsetInProgress, ents[0].index)
  {
    var from, stable, log := ents[0].index, st[1..u.offset], Whole(st, u);
    if from == u.offset + |u.entries| {
      assert log[..from - 1] == log && stable + (u.entries + ents) == (stable + u.entries) + ents;
    } else if from <= u.offset {
      assert log[..from - 1] == st[1..from];
    } else {
      var kept := u.entries[..from - u.offset];
      assert log[..from - 1] == stable + kept && stable + (kept + ents) == (stable + kept) + ents;
    }
  }

  /** What Storage.Entries answers for a range and a size limit; None where it panics. */
  type Reader = (nat, nat, nat) -> Option<seq<Entry>>

  /** As the interface promises it: the range, cut to the limit. */
  function Promised(st: seq<Entry>): Reader {
    (lo: nat, hi: nat, maxSize: nat) => if lo <= hi <= |st| then Some(LimitSize(st[lo..hi], maxSize)) else None
  }

  /** MemoryStorage.Entries, which is not implemented. */
  const UNIMPLEMENTED: Reader := (lo: nat, hi: nat, maxSize: nat) => None

  datatype SliceResult = Slice(ents: seq<Entry>) | ErrCompacted | SlicePanics

  /** raftLog.slice with its separate storage part, unstable part and size cuts. */
  function SliceWith(read: Reader, st: seq<Entry>, u: Unstable, lo: nat, hi: nat, maxSize: nat): SliceResult
    requires |st| >= 1
  {
    if lo > hi then SlicePanics
    else if lo < st[0].index + 1 then ErrCompacted
    else if hi > LastIn(st, u) + 1 then SlicePanics
    else if lo == hi then Slice([])
    else if lo >= u.offset then
      if hi > u.offset + |u.entries| then SlicePanics
      else Slice(LimitSize(u.entries[lo - u.offset..hi - u.offset], maxSize))
    else
      match read(lo, Min(hi, u.offset), maxSize)
      case None => SlicePanics
      case Some(ents) =>
        if hi <= u.offset || |ents| < u.offset - lo then Slice(ents)
        else JoinUnstable(u, ents, hi, maxSize)
  }

  /** The end of slice: as much of the tail as the limit leaves room for. */
  function JoinUnstable(u: Unstable, ents: seq<Entry>, hi: nat, maxSize: nat): SliceResult
    requires u.offset <= hi
  {
    var size := EntsSize(ents);
    if size >= maxSize then Slice(ents)
    else if hi > u.offset + |u.entries| then SlicePanics
    else
      var tail := LimitSize(u.entries[..hi - u.offset], maxSize - size);
      if |tail| == 1 && size + EntsSize(tail) > maxSize then Slice(ents)
      else Slice(ents + tail)
  }

  lemma {:induction false} EntsSizeSplit(a: seq<Entry>, b: seq<Entry>)
    ensures EntsSize(a + b) == EntsSize(a) + EntsSize(b)
    decreases |b|
  {
    if b == [] {
      assert a + b == a;
    } else {
      assert (a + b)[..|a + b| - 1] == a + b[..|b| - 1];
      EntsSizeSplit(a, b[..|b| - 1]);
    }
  }

  /** Cutting the joined range is cutting the first part, or keeping it and cutting the rest. */
  lemma LimitSizeJoins(a: seq<Entry>, b: seq<Entry>, maxSize: nat)
    requires a != [] && b != []
    ensures |LimitSize(a, maxSize)| < |a| || EntsSize(a) >= maxSize ==>
              LimitSize(a + b, maxSize) == LimitSize(a, maxSize)
    ensures |LimitSize(a, maxSize)| == |a| && EntsSize(a) < maxSize ==>
              var tail := LimitSize(b, maxSize - EntsSize(a));
              LimitSize(a + b, maxSize)
              == if |tail| == 1 && EntsSize(a) + EntsSize(tail) > maxSize then a else a + tail
  {
    LimitSizeIsLongest(a, maxSize);
    var n := |LimitSize(a, maxSize)|;
    assert (a + b)[..n] == a[..n];
    if n < |a| {
      assert (a + b)[..n + 1] == a[..n + 1];
      assert !Fits(a, n + 1, maxSize);
      LimitSizeUnique(a + b, n, maxSize);
    } else {
      assert a[..n] == a;
      if EntsSize(a) >= maxSize {
        assert (a + b)[..n + 1] == a + b[..1];
        EntsSizeSplit(a, b[..1]);
        SizeMonotone(b, 0, 1);
        assert !Fits(a + b, n + 1, maxSize);
        LimitSizeUnique(a + b, n, maxSize);
      } else {
        JoinTail(a, b, maxSize);
      }
    }
  }

  lemma JoinTail(a: seq<Entry>, b: seq<Entry>, maxSize: nat)
    requires a != [] && b != [] && EntsSize(a) < maxSize
    ensures var tail := LimitSize(b, maxSize - EntsSize(a));
            LimitSize(a + b, maxSize)
            == if |tail| == 1 && EntsSize(a) + EntsSize(tail) > maxSize then a else a + tail
  {
    hide EntsSize;
    var rest := maxSize - EntsSize(a);
    LimitSizeIsLongest(b, rest);
    var n := |LimitSize(b, rest)|;
    var keep := if n == 1 && EntsSize(b[..1]) > rest then 0 else n;
    assert (a + b)[..|a| + keep] == a + b[..keep];
    EntsSizeSplit(a, b[..keep]);
    assert b[..0] == [];
    if keep < |b| {
      assert (a + b)[..|a| + keep + 1] == a + b[..keep + 1];
      EntsSizeSplit(a, b[..keep + 1]);
      assert keep == n ==> !Fits(b, keep + 1, rest);
      assert !Fits(a + b, |a| + keep + 1, maxSize);
    }
    LimitSizeUnique(a + b, |a| + keep, maxSize);
  }

  lemma TailRange(st: seq<Entry>, u: Unstable, lo: nat, hi: nat)
    requires PartsOk(st, u) && u.offset <= lo <= hi <= |Whole(st, u)| + 1
    ensures Whole(st, u)[lo - 1..hi - 1] == u.entries[lo - u.offset..hi - u.offset]
  {
    var a, b := Whole(st, u)[lo - 1..hi - 1], u.entries[lo - u.offset..hi - u.offset];
    assert |st[1..u.offset]| == u.offset - 1;
    forall k | 0 <= k < |b| ensures a[k] == b[k] {
      assert a[k] == Whole(st, u)[lo - 1 + k];
    }
  }

  lemma StoredRange(st: seq<Entry>, u: Unstable, lo: nat, hi: nat)
    requires PartsOk(st, u) && 1 <= lo <= hi <= u.offset
    ensures Whole(st, u)[lo - 1..hi - 1] == st[lo..hi]
  {
    assert st[1..u.offset][lo - 1..hi - 1] == st[lo..hi];
    assert Whole(st, u)[lo - 1..hi - 1] == st[1..u.offset][lo - 1..hi - 1];
  }

  /** The two-part slice returns exactly the size-limited range of the whole log, and when it does not. */
  lemma SliceIsLimitedRange(st: seq<Entry>, u: Unstable, lo: nat, hi: nat, maxSize: nat)
    requires PartsOk(st, u)
    ensures SliceWith(Promised(st), st, u, lo, hi, maxSize)
            == if lo > hi then SlicePanics
               else if lo == 0 then ErrCompacted
               else if hi > |Whole(st, u)| + 1 then SlicePanics
               else Slice(LimitSize(Whole(st, u)[lo - 1..hi - 1], maxSize))
  {
    hide EntsSize, Fits;
    TermInExact(st, u, 0);
    if 1 <= lo <= hi <= |Whole(st, u)| + 1 {
      var all := Whole(st, u)[lo - 1..hi - 1];
      if lo == hi {
        assert all == [];
      } else if lo >= u.offset {
        TailRange(st, u, lo, hi);
      } else if hi <= u.offset {
        StoredRange(st, u, lo, hi);
      } else {
        SliceAcrossParts(st, u, lo, hi, maxSize);
      }
    }
  }

  lemma SliceAcrossParts(st: seq<Entry>, u: Unstable, lo: nat, hi: nat, maxSize: nat)
    requires PartsOk(st, u)
    requires 1 <= lo < u.offset < hi <= |Whole(st, u)| + 1
    ensures SliceWith(Promised(st), st, u, lo, hi, maxSize)
            == Slice(LimitSize(Whole(st, u)[lo - 1..hi - 1], maxSize))
  {
    hide EntsSize, Fits;
    var a, b := st[lo..u.offset], u.entries[..hi - u.offset];
    assert Whole(st, u)[lo - 1..hi - 1] == a + b;
    LimitSizeJoins(a, b, maxSize);
    TermInExact(st, u, 0);
    LimitSizeIsLongest(a, maxSize);
    if |LimitSize(a, maxSize)| == |a| {
      assert LimitSize(a, maxSize) == a;
    }
  }

  // ---------------------------------------------------------------------
  // Storage timing: with the tail starting at 1, storage contents never show.

  /** Exactly the ranges for which the unimplemented Entries makes slice panic. */
  lemma StorageIsReached(st: seq<Entry>, u: Unstable, lo: nat, hi: nat, maxSize: nat)
    requires PartsOk(st, u)
    ensures SliceWith(UNIMPLEMENTED, st, u, lo, hi, maxSize) == SliceWith(Promised(st), st, u, lo, hi, maxSize)
            <==> !(1 <= lo < hi <= |Whole(st, u)| + 1 && lo < u.offset)
  {
    TermInExact(st, u, 0);
    SliceIsLimitedRange(st, u, lo, hi, maxSize);
  }

  /** A node bootstrapped on empty storage answers alike whatever storage holds and however it reads. */
  lemma StorageNeverShows(r1: Reader, r2: Reader, st1: seq<Entry>, st2: seq<Entry>, u: Unstable,
                          lo: nat, hi: nat, maxSize: nat)
    requires PartsOk(st1, u) && PartsOk(st2, u) && u.offset == 1
    ensures TermIn(st1, u, lo) == TermIn(st2, u, lo)
    ensures LastIn(st1, u) == LastIn(st2, u)
    ensures SliceWith(r1, st1, u, lo, hi, maxSize) == SliceWith(r2, st2, u, lo, hi, maxSize)
  {
    TermInExact(st1, u, lo);
    TermInExact(st2, u, lo);
    assert Whole(st1, u) == Whole(st2, u);
  }

  /** Appending any captured log, however stale, makes storage hold exactly that log. */
  lemma AppendCapturesLog(st: seq<Entry>, captured: seq<Entry>)
    requires StorageOk(st) && Contiguous(captured, 1)
    ensures captured != [] ==> StorageAppend(st, captured) == Some([DUMMY] + captured)
    ensures captured == [] ==> StorageAppend(st, captured) == Some(st)
  {
    assert st[..1] == [DUMMY];
  }

  /** What Append leaves in storage: nothing new, the old entries up to the first new one and the new ones, or a panic. */
  lemma StorageAppendIs(st: seq<Entry>, es: seq<Entry>, first: nat)
    requires StorageOk(st) && es != [] && Contiguous(es, first)
    ensures first + |es| <= 1 ==> StorageAppend(st, es) == Some(st)
    ensures first + |es| > 1 && first <= |st| ==>
              StorageAppend(st, es) == Some(if first == 0 then [DUMMY] + es[1..] else st[..first] + es)
    ensures first > |st| ==> StorageAppend(st, es) == None
  {
    assert st[..1] == [DUMMY];
  }

  /** raftLog. */
  class RaftLog {
    const storage: MemoryStorage
    var unstable: Unstable
    var committed: nat
    var applying: nat
    var applied: nat

    ghost predicate Valid() reads this, storage {
      && PartsOk(storage.ents, unstable)
      && applied <= applying <= committed <= |Whole(storage.ents, unstable)|
    }

    ghost function Log(): seq<Entry>
      requires Valid()
      reads this, storage
    {
      Whole(storage.ents, unstable)
    }

    /** newLogWithSize on storage that was never compacted. */
    constructor (storage: MemoryStorage)
      requires storage.Valid()
      ensures Valid() && this.storage == storage
      ensures Log() == storage.ents[1..] && committed == applying == applied == 0
      ensures unstable == Unstable([], |storage.ents|, |storage.ents|)
    {
      this.storage := storage;
      unstable := Unstable([], storage.LastIndex() + 1, storage.LastIndex() + 1);
      committed, applying, applied := 0, 0, 0;
    }

    function LastIndex(): nat
      requires storage.Valid()
      reads this, storage
    {
      LastIn(storage.ents, unstable)
    }

    function Term(i: nat): Option<nat>
      requires storage.Valid()
      reads this, storage
    {
      TermIn(storage.ents, unstable, i)
    }

    /** nextUnstableEnts: the tail that is not yet being written. */
    function NextUnstableEnts(): seq<Entry>
      requires Valid()
      reads this, storage
    {
      unstable.entries[unstable.offsetInProgress - unstable.offset..]
    }

    method FindConflict(ents: seq<Entry>) returns (ci: nat)
      requires Valid()
      ensures ci == LogSpec.FindConflict(Log(), ents)
    {
      var k := 0;
      while k < |ents|
        invariant 0 <= k <= |ents|
        invariant LogSpec.FindConflict(Log(), ents) == LogSpec.FindConflict(Log(), ents[k..])
      {
        var ne := ents[k];
        TermInExact(storage.ents, unstable, ne.index);
        assert ents[k..][1..] == ents[k + 1..];
        if Term(ne.index) != Some(ne.term) {
          return ne.index;
        }
        k := k + 1;
      }
      return 0;
    }

    method FindConflictByTerm(index: nat, term: nat) returns (i: nat, t: nat)
      requires Valid()
      ensures (i, t) == LogSpec.FindConflictByTerm(Log(), index, term)
    {
      i := index;
      while i > 0
        invariant LogSpec.FindConflictByTerm(Log(), index, term) == LogSpec.FindConflictByTerm(Log(), i, term)
      {
        TermInExact(storage.ents, unstable, i);
        var ours := Term(i);
        if ours.None? {
          return i, 0;
        } else if ours.value <= term {
          return i, ours.value;
        }
        i := i - 1;
      }
      return 0, 0;
    }

    method Append(ents: seq<Entry>) returns (last: nat)
      requires Valid()
      requires ents != [] ==> Contiguous(ents, ents[0].index)
                              && committed + 1 <= ents[0].index <= |Log()| + 1
      modifies this
      ensures Valid() && last == |Log()|
      ensures committed == old(committed) && applying == old(applying) && applied == old(applied)
      ensures Log() == if ents == [] then old(Log()) else Splice(old(Log()), ents[0].index, ents)
      ensures old(unstable.offset) == 1 && old(unstable.offsetInProgress) == 1 ==>
                unstable.offset == 1 && unstable.offsetInProgress == 1
    {
      TermInExact(storage.ents, unstable, 0);
      if |ents| != 0 {
        TruncateAndAppendSplices(storage.ents, unstable, ents);
        unstable := TruncateAndAppend(unstable, ents);
        TermInExact(storage.ents, unstable, 0);
      }
      last := LastIndex();
    }

    method CommitTo(tocommit: nat)
      requires Valid() && tocommit <= |Log()|
      modifies this`committed
      ensures Valid() && Log() == old(Log())
      ensures committed == if old(committed) < tocommit then tocommit else old(committed)
    {
      if committed < tocommit {
        committed := tocommit;
      }
    }

    /** The part of maybeAppend that finds the first conflict and splices there. */
    method MergeIn(index: nat, ents: seq<Entry>)
      requires Valid() && index <= |Log()| && Contiguous(ents, index + 1)
      requires LogSpec.FindConflict(Log(), ents) == 0 || LogSpec.FindConflict(Log(), ents) > committed
      modifies this
      ensures Valid() && Log() == Merge(old(Log()), index, ents) && index + |ents| <= |Log()|
      ensures committed == old(committed) && applying == old(applying) && applied == old(applied)
      ensures old(unstable.offset) == 1 && old(unstable.offsetInProgress) == 1 ==>
                unstable.offset == 1 && unstable.offsetInProgress == 1
    {
      FindConflictExact(Log(), ents, index + 1);
      var ci := FindConflict(ents);
      if ci != 0 {
        var offset := index + 1;
        var _ := Append(ents[ci - offset..]);
      }
    }

    /** maybeAppend: the two-part log does exactly what the sequence specification does. */
    method MaybeAppend(index: nat, logTerm: nat, commit: nat, ents: seq<Entry>)
      returns (lastnewi: nat, ok: bool)
      requires Valid() && Contiguous(ents, index + 1)
      requires LogSpec.MaybeAppend(Log(), committed, index, logTerm, commit, ents) != Panics
      modifies this
      ensures Valid() && applying == old(applying) && applied == old(applied)
      ensures var r := LogSpec.MaybeAppend(old(Log()), old(committed), index, logTerm, commit, ents);
              if ok then r == Appended(Log(), committed, lastnewi)
              else r == Mismatch && Log() == old(Log()) && committed == old(committed)
      ensures old(unstable.offset) == 1 && old(unstable.offsetInProgress) == 1 ==>
                unstable.offset == 1 && unstable.offsetInProgress == 1
    {
      TermInExact(storage.ents, unstable, index);
      if Term(index) != Some(logTerm) {
        return 0, false;
      }
      MergeIn(index, ents);
      lastnewi := index + |ents|;
      CommitTo(Min(commit, lastnewi));
      return lastnewi, true;
    }

    /** Panics on a range that is reversed or ends behind the log. */
    method Slice(lo: nat, hi: nat, maxSize: nat) returns (r: SliceResult)
      requires Valid() && lo <= hi && (lo >= 1 ==> hi <= |Log()| + 1)
      ensures r == if lo == 0 then ErrCompacted else SliceResult.Slice(LimitSize(Log()[lo - 1..hi - 1], maxSize))
    {
      SliceIsLimitedRange(storage.ents, unstable, lo, hi, maxSize);
      r := SliceWith(Promised(storage.ents), storage.ents, unstable, lo, hi, maxSize);
    }

    /** entries: the log from index `i` on, cut to `maxSize`. */
    method Entries(i: nat, maxSize: nat) returns (r: SliceResult)
      requires Valid()
      ensures r == if i > |Log()| then SliceResult.Slice([])
                   else if i == 0 then ErrCompacted
                   else SliceResult.Slice(LimitSize(Log()[i - 1..], maxSize))
    {
      TermInExact(storage.ents, unstable, 0);
      if i > LastIndex() {
        return SliceResult.Slice([]);
      }
      r := Slice(i, LastIndex() + 1, maxSize);
      assert i >= 1 ==> Log()[i - 1..|Log()|] == Log()[i - 1..];
    }

    /** nextCommittedEnts, with unstable entries allowed; panics when there are entries but no room. */
    method NextCommittedEnts(maxSize: nat) returns (ents: seq<Entry>)
      requires Valid() && (applying < committed ==> maxSize > 0)
      ensures ents == LimitSize(Log()[applying..committed], maxSize)
      ensures ents <= Log()[applying..committed]
      ensures applying < committed ==> ents != []
    {
      LimitSizeIsLongest(Log()[applying..committed], maxSize);
      var lo, hi := applying + 1, committed + 1;
      if lo >= hi {
        return [];
      }
      var r := Slice(lo, hi, maxSize);
      ents := r.ents;
    }
  }
}
