/** The Raft log as one sequence: entry number i sits at position i - 1. */
module LogSpec {
  import opened RaftTypes

  /** The term at index `i`; index 0 is the dummy entry of term 0. */
  function TermOf(log: seq<Entry>, i: nat): Option<nat> {
    if i == 0 then Some(0) else if i <= |log| then Some(log[i - 1].term) else None
  }

  predicate MatchTerm(log: seq<Entry>, i: nat, term: nat) {
    TermOf(log, i) == Some(term)
  }

  function LastTerm(log: seq<Entry>): nat {
    if log == [] then 0 else log[|log| - 1].term
  }

  predicate UpToDate(log: seq<Entry>, lasti: nat, term: nat) {
    term > LastTerm(log) || (term == LastTerm(log) && lasti >= |log|)
  }

  /** Index of the first entry that the log lacks or holds with another term; 0 if none. */
  function FindConflict(log: seq<Entry>, ents: seq<Entry>): nat {
    if ents == [] then 0
    else if !MatchTerm(log, ents[0].index, ents[0].term) then ents[0].index
    else FindConflict(log, ents[1..])
  }

  lemma {:induction false} FindConflictExact(log: seq<Entry>, ents: seq<Entry>, first: nat)
    requires first >= 1 && Contiguous(ents, first) && first - 1 <= |log|
    ensures var ci := FindConflict(log, ents);
            && (ci == 0 ==> first - 1 + |ents| <= |log|)
            && (ci != 0 ==> first <= ci < first + |ents| && ci - 1 <= |log|
                            && !MatchTerm(log, ci, ents[ci - first].term))
            && forall k :: 0 <= k < (if ci == 0 then |ents| else ci - first) ==>
                 MatchTerm(log, first + k, ents[k].term)
  {
    if ents != [] && MatchTerm(log, ents[0].index, ents[0].term) {
      FindConflictExact(log, ents[1..], first + 1);
      assert ents == [ents[0]] + ents[1..];
    }
  }

  /** Entries `ents` written over the tail of the log from their own first index on. */
  function Splice(log: seq<Entry>, first: nat, ents: seq<Entry>): seq<Entry>
    requires 1 <= first <= |log| + 1
  {
    log[..first - 1] + ents
  }

  /** The log with `ents`, sent to follow index `index`, spliced in from the first conflict on. */
  function Merge(log: seq<Entry>, index: nat, ents: seq<Entry>): seq<Entry>
    requires index <= |log| && Contiguous(ents, index + 1)
  {
    FindConflictExact(log, ents, index + 1);
    var ci := FindConflict(log, ents);
    if ci == 0 then log else Splice(log, ci, ents[ci - (index + 1)..])
  }

  datatype AppendResult =
    | Appended(log: seq<Entry>, committed: nat, lastnewi: nat)
    | Mismatch
    | Panics

  /** Follower append: reject, keep, or splice in the part after the first conflict. */
  function MaybeAppend(log: seq<Entry>, committed: nat, index: nat, logTerm: nat, commit: nat,
                       ents: seq<Entry>): AppendResult
    requires Contiguous(ents, index + 1)
  {
    if !MatchTerm(log, index, logTerm) then Mismatch
    else
      var ci := FindConflict(log, ents);
      if ci != 0 && ci <= committed then Panics
      else
        var lastnewi := index + |ents|;
        var c := if commit <= lastnewi then commit else lastnewi;
        Appended(Merge(log, index, ents), if committed < c then c else committed, lastnewi)
  }

  /** The merged log is a log, and holds everything that was sent. */
  lemma MergeHoldsSent(log: seq<Entry>, index: nat, ents: seq<Entry>)
    requires Contiguous(ents, index + 1) && Contiguous(log, 1) && index <= |log|
    ensures var r := Merge(log, index, ents);
            && Contiguous(r, 1) && index + |ents| <= |r|
            && forall k :: 0 <= k < |ents| ==> MatchTerm(r, index + 1 + k, ents[k].term)
  {
    FindConflictExact(log, ents, index + 1);
  }

  /** The merged log changes nothing before the first conflict, and nothing at all without one. */
  lemma MergeKeepsPrefix(log: seq<Entry>, index: nat, ents: seq<Entry>, k: nat)
    requires Contiguous(ents, index + 1) && index <= |log|
    requires k <= |log| && (FindConflict(log, ents) == 0 || k < FindConflict(log, ents))
    ensures var r := Merge(log, index, ents); k <= |r| && r[..k] == log[..k]
    ensures FindConflict(log, ents) == 0 || index < FindConflict(log, ents)
    ensures Merge(log, index, ents) != log ==> |Merge(log, index, ents)| == index + |ents|
  {
    FindConflictExact(log, ents, index + 1);
    var ci := FindConflict(log, ents);
    if ci != 0 {
      SpliceKeeps(log, ci, ents[ci - (index + 1)..], k);
    }
  }

  lemma SpliceKeeps(log: seq<Entry>, first: nat, ents: seq<Entry>, k: nat)
    requires 1 <= first <= |log| + 1 && k < first
    ensures Splice(log, first, ents)[..k] == log[..k]
  {
  }

  lemma {:induction false} NothingConflicts(log: seq<Entry>, index: nat, ents: seq<Entry>)
    requires Contiguous(ents, index + 1)
    requires forall k :: 0 <= k < |ents| ==> MatchTerm(log, index + 1 + k, ents[k].term)
    ensures FindConflict(log, ents) == 0
    decreases |ents|
  {
    if ents != [] {
      assert MatchTerm(log, index + 1 + 0, ents[0].term);
      NothingConflicts(log, index + 1, ents[1..]);
    }
  }

  /** What a follower append promises, whatever the message. */
  lemma MaybeAppendSound(log: seq<Entry>, committed: nat, index: nat, logTerm: nat, commit: nat,
                         ents: seq<Entry>)
    requires Contiguous(ents, index + 1) && Contiguous(log, 1) && committed <= |log|
    requires MaybeAppend(log, committed, index, logTerm, commit, ents).Appended?
    ensures var r := MaybeAppend(log, committed, index, logTerm, commit, ents);
            // the new log is again a log, and holds everything that was sent
            && Contiguous(r.log, 1) && r.lastnewi == index + |ents| <= |r.log|
            && (forall k :: 0 <= k < |ents| ==> MatchTerm(r.log, index + 1 + k, ents[k].term))
            // everything up to the first conflict, and the committed prefix, is untouched
            && index <= |log| && r.log[..index] == log[..index]
            && committed <= r.committed <= |r.log|
            && r.log[..committed] == log[..committed]
            && (r.committed > committed ==> r.committed <= r.lastnewi)
            // a stale or repeated message never drops a suffix
            && ((forall k :: 0 <= k < |ents| ==> MatchTerm(log, index + 1 + k, ents[k].term))
                ==> r.log == log)
            // otherwise the log now ends with the last entry that was sent
            && (r.log != log ==> |r.log| == r.lastnewi)
  {
    MergeHoldsSent(log, index, ents);
    MergeKeepsPrefix(log, index, ents, 0);
    MergeKeepsPrefix(log, index, ents, index);
    MergeKeepsPrefix(log, index, ents, committed);
    if forall k :: 0 <= k < |ents| ==> MatchTerm(log, index + 1 + k, ents[k].term) {
      NothingConflicts(log, index, ents);
    }
  }

  /** The same message a second time changes nothing. */
  lemma MaybeAppendIdempotent(log: seq<Entry>, committed: nat, index: nat, logTerm: nat, commit: nat,
                              ents: seq<Entry>)
    requires Contiguous(ents, index + 1) && Contiguous(log, 1) && committed <= |log|
    requires MaybeAppend(log, committed, index, logTerm, commit, ents).Appended?
    ensures var r := MaybeAppend(log, committed, index, logTerm, commit, ents);
            MaybeAppend(r.log, r.committed, index, logTerm, commit, ents) == r
  {
    var r := MaybeAppend(log, committed, index, logTerm, commit, ents);
    assert MatchTerm(r.log, index, logTerm) && FindConflict(r.log, ents) == 0 by {
      MaybeAppendSound(log, committed, index, logTerm, commit, ents);
      if index > 0 {
        assert r.log[..index][index - 1] == log[..index][index - 1];
      }
      NothingConflicts(r.log, index, ents);
    }
  }

  // ---------------------------------------------------------------------
  // The reject hint.

  /** Largest index at or below `index` whose term is at most `term` or unknown. */
  function FindConflictByTerm(log: seq<Entry>, index: nat, term: nat): (nat, nat) {
    if index == 0 then (0, 0)
    else
      match TermOf(log, index)
      case None => (index, 0)
      case Some(ours) => if ours <= term then (index, ours) else FindConflictByTerm(log, index - 1, term)
  }

  ghost predicate CouldMatch(log: seq<Entry>, i: nat, term: nat) {
    TermOf(log, i) == None || TermOf(log, i).value <= term
  }

  lemma {:induction false} FindConflictByTermIsLargest(log: seq<Entry>, index: nat, term: nat)
    ensures var (i, t) := FindConflictByTerm(log, index, term);
            && i <= index && CouldMatch(log, i, term)
            && t == (if TermOf(log, i).Some? then TermOf(log, i).value else 0)
            && forall j :: i < j <= index ==> !CouldMatch(log, j, term)
  {
    if index > 0 && TermOf(log, index).Some? && TermOf(log, index).value > term {
      FindConflictByTermIsLargest(log, index - 1, term);
    }
  }

  ghost predicate TermLe(log: seq<Entry>, j: nat, k: nat)
    requires j < |log| && k < |log|
  {
    log[j].term <= log[k].term
  }

  ghost predicate TermsSorted(log: seq<Entry>) {
    forall j: nat, k: nat {:trigger TermLe(log, j, k)} :: j <= k < |log| ==> TermLe(log, j, k)
  }

  /** No index above the hint and up to the rejected one can match the sender's log. */
  lemma HintIsSound(ours: seq<Entry>, theirs: seq<Entry>, index: nat, j: nat)
    requires TermsSorted(theirs) && index <= |theirs|
    requires var at := if index <= |ours| then index else |ours|;
             FindConflictByTerm(ours, at, TermOf(theirs, index).value).0 < j <= index
    ensures TermOf(ours, j) != TermOf(theirs, j)
  {
    var at := if index <= |ours| then index else |ours|;
    var logTerm := TermOf(theirs, index).value;
    FindConflictByTermIsLargest(ours, at, logTerm);
    if j <= at {
      assert !CouldMatch(ours, j, logTerm);
      assert TermLe(theirs, j - 1, index - 1);
    }
  }
}
