/** The Changer over maps and pointers: it works on copies, so its caller's tracker is never touched. */
module Changers {
  import opened RaftTypes
  import opened Quorum
  import opened Tracker
  import ConfChange

  /** A Go map used as a set of identifiers. */
  class IdSet {
    var ids: set<nat>

    constructor (ids: set<nat>)
      ensures this.ids == ids
    {
      this.ids := ids;
    }
  }

  class ProgressCell {
    var progress: Progress

    constructor (progress: Progress)
      ensures this.progress == progress
    {
      this.progress := progress;
    }
  }

  class ProgressMap {
    var cells: map<nat, ProgressCell>

    constructor (cells: map<nat, ProgressCell>)
      ensures this.cells == cells
    {
      this.cells := cells;
    }
  }

  /** A configuration and a progress map as they are passed around: structures that hold references. */
  datatype TrackerRefs = TrackerRefs(
    incoming: IdSet, outgoing: IdSet, learners: IdSet, learnersNext: IdSet, progress: ProgressMap)

  ghost function Cells(r: TrackerRefs): set<ProgressCell>
    reads r.progress
  {
    set id | id in r.progress.cells :: r.progress.cells[id]
  }

  ghost function Sets(r: TrackerRefs): set<IdSet> { {r.incoming, r.outgoing, r.learners, r.learnersNext} }

  /** No two of the references are to one object. */
  ghost predicate Apart(r: TrackerRefs)
    reads r.progress
  {
    && r.incoming != r.outgoing && r.incoming != r.learners && r.incoming != r.learnersNext
    && r.outgoing != r.learners && r.outgoing != r.learnersNext && r.learners != r.learnersNext
    && forall i, j :: i in r.progress.cells && j in r.progress.cells && i != j ==>
         r.progress.cells[i] != r.progress.cells[j]
  }

  /** The tracker that the references show. */
  ghost function View(r: TrackerRefs): ConfChange.Tracked
    reads Sets(r), r.progress, Cells(r)
  {
    ConfChange.Tracked(
      ConfChange.Config(JointConfig(r.incoming.ids, r.outgoing.ids), r.learners.ids, r.learnersNext.ids),
      map id | id in r.progress.cells :: r.progress.cells[id].progress)
  }

  /** checkAndCopy: new maps, and a new cell for each peer. */
  method CheckAndCopy(r: TrackerRefs) returns (c: TrackerRefs)
    ensures Apart(c) && View(c) == View(r)
    ensures fresh(Sets(c)) && fresh(c.progress) && fresh(Cells(c))
  {
    var incoming := new IdSet(r.incoming.ids);
    var outgoing := new IdSet(r.outgoing.ids);
    var learners := new IdSet(r.learners.ids);
    var learnersNext := new IdSet(r.learnersNext.ids);
    var cells := CopyCells(r);
    var progress := new ProgressMap(cells);
    c := TrackerRefs(incoming, outgoing, learners, learnersNext, progress);
  }

  method CopyCells(r: TrackerRefs) returns (cells: map<nat, ProgressCell>)
    ensures cells.Keys == r.progress.cells.Keys
    ensures forall id :: id in cells ==> fresh(cells[id]) && cells[id].progress == r.progress.cells[id].progress
    ensures forall i, j :: i in cells && j in cells && i != j ==> cells[i] != cells[j]
  {
    cells := map[];
    var todo := r.progress.cells.Keys;
    while todo != {}
      invariant todo <= r.progress.cells.Keys && cells.Keys == r.progress.cells.Keys - todo
      invariant forall id :: id in cells ==> fresh(cells[id]) && cells[id].progress == r.progress.cells[id].progress
      invariant forall i, j :: i in cells && j in cells && i != j ==> cells[i] != cells[j]
      decreases todo
    {
      var id :| id in todo;
      var cell := new ProgressCell(r.progress.cells[id].progress);
      cells := cells[id := cell];
      todo := todo - {id};
    }
  }

  /** What each change keeps: the same maps, old cells or new ones, and no other object written. */
  twostate predicate SameMaps(r: TrackerRefs)
    reads r.progress
  {
    Apart(r) && forall c :: c in Cells(r) ==> c in old(Cells(r)) || fresh(c)
  }

  method MakeVoter(r: TrackerRefs, id: nat, lastIndex: nat)
    requires Apart(r)
    modifies Sets(r), r.progress, Cells(r)
    ensures SameMaps(r) && View(r) == ConfChange.MakeVoter(old(View(r)), id, lastIndex)
  {
    if id !in r.progress.cells {
      InitProgress(r, id, lastIndex);
      return;
    }
    var cell := r.progress.cells[id];
    cell.progress := cell.progress.(isLearner := false);
    r.learners.ids := r.learners.ids - {id};
    r.learnersNext.ids := r.learnersNext.ids - {id};
    r.incoming.ids := r.incoming.ids + {id};
  }

  method InitProgress(r: TrackerRefs, id: nat, lastIndex: nat)
    requires Apart(r) && id !in r.progress.cells
    modifies r.incoming, r.progress
    ensures SameMaps(r) && View(r) == ConfChange.InitProgress(old(View(r)), id, lastIndex)
  {
    r.incoming.ids := r.incoming.ids + {id};
    var cell := new ProgressCell(Progress(0, lastIndex, StateProbe, 0, true, false, false));
    r.progress.cells := r.progress.cells[id := cell];
  }

  method Remove(r: TrackerRefs, id: nat)
    requires Apart(r)
    modifies Sets(r), r.progress
    ensures SameMaps(r) && View(r) == ConfChange.Remove(old(View(r)), id)
  {
    if id !in r.progress.cells {
      return;
    }
    r.incoming.ids := r.incoming.ids - {id};
    r.learners.ids := r.learners.ids - {id};
    r.learnersNext.ids := r.learnersNext.ids - {id};
    if id !in r.outgoing.ids {
      r.progress.cells := r.progress.cells - {id};
    }
  }

  /** apply, in place on the copies; false is any of its errors. */
  method Apply(r: TrackerRefs, lastIndex: nat, ccs: seq<ConfChangeSingle>) returns (ok: bool)
    requires Apart(r)
    modifies Sets(r), r.progress, Cells(r)
    ensures SameMaps(r)
    ensures var a := ConfChange.ApplyAll(old(View(r)), lastIndex, ccs);
            && (ok <==> a.Some? && a.value.cfg.voters.incoming != {})
            && (ok ==> View(r) == a.value)
  {
    var k := 0;
    while k < |ccs|
      invariant 0 <= k <= |ccs| && SameMaps(r)
      invariant ConfChange.ApplyAll(old(View(r)), lastIndex, ccs[..k]) == Some(View(r))
    {
      ghost var done := ccs[..k + 1];
      assert done[..k] == ccs[..k];
      ok := ApplyOne(r, lastIndex, ccs[k]);
      k := k + 1;
      if !ok {
        ConfChange.RejectedStays(old(View(r)), lastIndex, ccs, k);
        return;
      }
    }
    assert ccs[..k] == ccs;
    ok := r.incoming.ids != {};
  }

  method ApplyOne(r: TrackerRefs, lastIndex: nat, cc: ConfChangeSingle) returns (ok: bool)
    requires Apart(r)
    modifies Sets(r), r.progress, Cells(r)
    ensures SameMaps(r)
    ensures ConfChange.ApplyOne(old(View(r)), lastIndex, cc) == if ok then Some(View(r)) else None
  {
    if cc.nodeID == 0 {
      return true;
    }
    if cc.ctype == ADD_NODE {
      MakeVoter(r, cc.nodeID, lastIndex);
    } else if cc.ctype == REMOVE_NODE {
      Remove(r, cc.nodeID);
    } else if cc.ctype != UPDATE_NODE {
      return false;
    }
    return true;
  }

  /** The rest of Simple on the copies; `voters` are those of the caller's configuration. */
  method ApplyChecked(r: TrackerRefs, voters: set<nat>, lastIndex: nat, ccs: seq<ConfChangeSingle>) returns (ok: bool)
    requires Apart(r) && voters == r.incoming.ids
    modifies Sets(r), r.progress, Cells(r)
    ensures SameMaps(r)
    ensures ConfChange.Simple(old(View(r)), lastIndex, ccs) == if ok then Some(View(r)) else None
  {
    if r.outgoing.ids != {} {
      return false;
    }
    ok := Apply(r, lastIndex, ccs);
    if ok {
      ghost var changed := View(r);
      var n := ConfChange.SymDiff(voters, r.incoming.ids);
      assert View(r) == changed;
      ok := n <= 1;
    }
  }

  /** Simple. It modifies nothing: whether it fails or not, the caller's maps and cells stay as they were. */
  method Simple(r: TrackerRefs, lastIndex: nat, ccs: seq<ConfChangeSingle>) returns (res: Option<TrackerRefs>)
    ensures res.None? <==> ConfChange.Simple(View(r), lastIndex, ccs) == None
    ensures res.Some? ==>
              && Apart(res.value) && fresh(Sets(res.value)) && fresh(res.value.progress) && fresh(Cells(res.value))
              && ConfChange.Simple(View(r), lastIndex, ccs) == Some(View(res.value))
  {
    hide ConfChange.Simple;
    ghost var t := View(r);
    var c := CheckAndCopy(r);
    assert View(c) == t;
    var ok := ApplyChecked(c, r.incoming.ids, lastIndex, ccs);
    assert View(r) == t;
    assert fresh(Cells(c));
    res := if ok then Some(c) else None;
  }
}
