/** Per-peer replication progress, the voter configuration and the order of visits. */
module Tracker {
  import opened RaftTypes
  import opened Quorum

  datatype ProgressState = StateProbe | StateReplicate | StateSnapshot

  datatype Progress = Progress(
    matched: nat, next: nat, state: ProgressState, pendingSnapshot: nat,
    recentActive: bool, msgAppFlowPaused: bool, isLearner: bool)
  {
    function ResetState(s: ProgressState): Progress {
      this.(msgAppFlowPaused := false, pendingSnapshot := 0, state := s)
    }

    function BecomeProbe(): Progress {
      var n := matched + 1;
      ResetState(StateProbe).(next := if state == StateSnapshot && n < pendingSnapshot + 1
                                      then pendingSnapshot + 1 else n)
    }

    function BecomeReplicate(): Progress {
      ResetState(StateReplicate).(next := matched + 1)
    }

    /** An acknowledgement of index `n`; the flag says whether `matched` moved. */
    function MaybeUpdate(n: nat): (Progress, bool) {
      var p := if matched < n then this.(matched := n, msgAppFlowPaused := false) else this;
      (p.(next := if next < n + 1 then n + 1 else next), matched < n)
    }

    function IsPaused(): bool {
      match state
      case StateProbe => msgAppFlowPaused
      case StateReplicate => msgAppFlowPaused
      case StateSnapshot => true
    }

    /** None where the source reports "sending append in unhandled state". */
    function UpdateOnEntriesSend(entries: nat): Option<Progress> {
      match state
      case StateReplicate => Some(this)
      case StateProbe => Some(if entries > 0 then this.(msgAppFlowPaused := true) else this)
      case StateSnapshot => None
    }
  }

  /** Every acknowledgement and state change keeps `matched` below `next`. */
  lemma ProgressOrdered(p: Progress, n: nat)
    requires p.matched < p.next
    ensures p.MaybeUpdate(n).0.matched < p.MaybeUpdate(n).0.next
    ensures p.MaybeUpdate(n).0.matched == (if n <= p.matched then p.matched else n)
    ensures p.BecomeProbe().matched < p.BecomeProbe().next
    ensures p.BecomeReplicate().matched + 1 == p.BecomeReplicate().next
  {
  }

  // ---------------------------------------------------------------------
  // The stable order in which progresses are visited.

  ghost predicate Increasing(s: seq<nat>) {
    forall i, j :: 0 <= i < j < |s| ==> s[i] < s[j]
  }

  ghost function Elems(s: seq<nat>): set<nat> { set x | x in s }

  ghost predicate IsLeast(m: nat, s: set<nat>) {
    m in s && forall x :: x in s ==> m <= x
  }

  lemma {:induction false} HasLeast(s: set<nat>)
    requires s != {}
    ensures exists m :: IsLeast(m, s)
  {
    var m :| m in s;
    if s == {m} {
      assert IsLeast(m, s);
    } else {
      HasLeast(s - {m});
      var r :| IsLeast(r, s - {m});
      assert forall x :: x in s ==> x == m || x in s - {m};
      assert IsLeast(if r < m then r else m, s);
    }
  }

  /** The members of `s` in increasing order. */
  ghost function SortedIds(s: set<nat>): (r: seq<nat>)
    ensures Increasing(r) && Elems(r) == s
  {
    if s == {} then []
    else
      HasLeast(s);
      var m :| IsLeast(m, s);
      var rest := SortedIds(s - {m});
      LeastFirst(m, rest);
      [m] + rest
  }

  lemma LeastFirst(m: nat, rest: seq<nat>)
    requires Increasing(rest) && forall x :: x in Elems(rest) ==> m < x
    ensures Increasing([m] + rest) && Elems([m] + rest) == {m} + Elems(rest)
  {
    assert forall j :: 0 <= j < |rest| ==> rest[j] in Elems(rest);
  }

  lemma {:induction false} IncreasingUnique(a: seq<nat>, b: seq<nat>)
    requires Increasing(a) && Increasing(b) && Elems(a) == Elems(b)
    ensures a == b
  {
    ElemsEmpty(a);
    ElemsEmpty(b);
    if a != [] {
      assert a[0] in Elems(a) && b[0] in Elems(b);
      assert a[0] == b[0];
      assert Elems(a[1..]) == Elems(a) - {a[0]} by { TailElems(a); }
      assert Elems(b[1..]) == Elems(b) - {b[0]} by { TailElems(b); }
      IncreasingUnique(a[1..], b[1..]);
    }
  }

  lemma ElemsEmpty(a: seq<nat>)
    ensures Elems(a) == {} <==> a == []
  {
    if a != [] {
      assert a[0] in Elems(a);
    }
  }

  lemma TailElems(a: seq<nat>)
    requires a != [] && Increasing(a)
    ensures Elems(a[1..]) == Elems(a) - {a[0]}
  {
    assert a == [a[0]] + a[1..];
    assert a[0] !in Elems(a[1..]);
  }

  ghost predicate SortedUpTo(s: seq<nat>, n: nat)
    requires n <= |s|
  {
    forall i, j :: 0 <= i < j < n ==> s[i] <= s[j]
  }

  ghost predicate Permutes(a: seq<nat>, b: seq<nat>) { multiset(a) == multiset(b) }

  /** insertionSort, in place. */
  method InsertionSort(sl: array<nat>)
    modifies sl
    ensures SortedUpTo(sl[..], sl.Length)
    ensures Permutes(sl[..], old(sl[..]))
  {
    var i := 1;
    while i < sl.Length
      invariant 1 <= i
      invariant SortedUpTo(sl[..], if i < sl.Length then i else sl.Length)
      invariant Permutes(sl[..], old(sl[..]))
    {
      Insert(sl, i);
      i := i + 1;
    }
  }

  /** All but the element at `j` are in order up to `i`, and it may only be too small. */
  ghost predicate Sinking(s: seq<nat>, i: nat, j: nat) {
    && j <= i < |s|
    && forall a, b :: 0 <= a < b <= i && b != j ==> s[a] <= s[b]
  }

  lemma SinkOne(s: seq<nat>, i: nat, j: nat)
    requires Sinking(s, i, j) && j > 0 && s[j] < s[j - 1]
    ensures Sinking(s[j := s[j - 1]][j - 1 := s[j]], i, j - 1)
    ensures Permutes(s[j := s[j - 1]][j - 1 := s[j]], s)
  {
  }

  /** The inner loop: element `i` sinks to its place among the sorted ones before it. */
  method Insert(sl: array<nat>, i: nat)
    requires i < sl.Length && SortedUpTo(sl[..], i)
    modifies sl
    ensures SortedUpTo(sl[..], i + 1)
    ensures Permutes(sl[..], old(sl[..]))
  {
    var j: nat := i;
    while j > 0 && sl[j] < sl[j - 1]
      invariant Sinking(sl[..], i, j) && Permutes(sl[..], old(sl[..]))
    {
      SinkOne(sl[..], i, j);
      Swap(sl, j);
      j := j - 1;
    }
  }

  method Swap(sl: array<nat>, j: nat)
    requires 0 < j < sl.Length
    modifies sl
    ensures sl[..] == old(sl[..])[j := old(sl[j - 1])][j - 1 := old(sl[j])]
  {
    sl[j], sl[j - 1] := sl[j - 1], sl[j];
  }

  ghost predicate Distinct(s: seq<nat>) {
    forall i, j :: 0 <= i < j < |s| ==> s[i] != s[j]
  }

  lemma DistinctPrepend(x: nat, s: seq<nat>)
    requires Distinct(s) && x !in Elems(s)
    ensures Distinct([x] + s) && Elems([x] + s) == {x} + Elems(s)
  {
    assert forall j :: 0 <= j < |s| ==> s[j] in Elems(s);
    assert forall y :: y in [x] + s <==> y == x || y in s;
  }

  /** The identifiers that Visit walks over: the keys, collected from the back and sorted. */
  method VisitOrder(progress: map<nat, Progress>) returns (ids: seq<nat>)
    ensures ids == SortedIds(progress.Keys)
  {
    ids := SortSet(progress.Keys);
  }

  method SortSet(keys: set<nat>) returns (ids: seq<nat>)
    ensures ids == SortedIds(keys)
  {
    var sl := CollectKeys(keys);
    ghost var unsorted := sl[..];
    InsertionSort(sl);
    ids := sl[..];
    SortedDistinct(unsorted, ids);
    IncreasingUnique(ids, SortedIds(keys));
  }

  lemma NextKey(seen: seq<nat>, keys: set<nat>, todo: set<nat>, id: nat)
    requires Distinct(seen) && Elems(seen) == keys - todo && todo <= keys && id in todo
    ensures Distinct([id] + seen) && Elems([id] + seen) == keys - (todo - {id})
    ensures |todo - {id}| == |todo| - 1
  {
    DistinctPrepend(id, seen);
  }

  method CollectKeys(keys: set<nat>) returns (sl: array<nat>)
    ensures fresh(sl) && Distinct(sl[..]) && Elems(sl[..]) == keys
  {
    var n := |keys|;
    sl := new nat[n];
    var todo := keys;
    ghost var seen: seq<nat> := [];
    while todo != {}
      invariant todo <= keys && n == |todo| <= sl.Length && seen == sl[n..]
      invariant Distinct(seen) && Elems(seen) == keys - todo
      decreases todo
    {
      var id :| id in todo;
      NextKey(seen, keys, todo, id);
      n := n - 1;
      sl[n] := id;
      assert sl[n + 1..] == seen;
      todo := todo - {id};
      seen := [id] + seen;
    }
    assert sl[0..] == sl[..];
  }

  lemma SortedDistinct(a: seq<nat>, b: seq<nat>)
    requires Permutes(b, a) && SortedUpTo(b, |b|)
    requires Distinct(a)
    ensures Increasing(b) && Elems(b) == Elems(a)
  {
    assert forall x :: x in a <==> x in multiset(a);
    assert forall x :: x in b <==> x in multiset(b);
    forall i, j | 0 <= i < j < |b| ensures b[i] < b[j] {
      if b[i] == b[j] {
        OccursTwice(b, i, j);
        OccursOnce(a, b[i]);
        assert false;
      }
    }
  }

  lemma OccursTwice(b: seq<nat>, i: nat, j: nat)
    requires i < j < |b| && b[i] == b[j]
    ensures multiset(b)[b[i]] >= 2
  {
    assert b == b[..j] + b[j..];
    assert multiset(b) == multiset(b[..j]) + multiset(b[j..]);
    assert b[..j][i] == b[i] && b[j..][0] == b[j];
    assert b[i] in multiset(b[..j]) && b[j] in multiset(b[j..]);
  }

  lemma {:induction false} OccursOnce(a: seq<nat>, x: nat)
    requires Distinct(a)
    ensures multiset(a)[x] <= 1
  {
    if a != [] {
      OccursOnce(a[1..], x);
      assert a == [a[0]] + a[1..];
      assert multiset(a) == multiset([a[0]]) + multiset(a[1..]);
      assert a[0] !in a[1..];
    }
  }
}
