/** Simple membership changes: at most one voter enters or leaves. */
module ConfChange {
  import opened RaftTypes
  import opened Quorum
  import opened Tracker

  datatype Config = Config(voters: JointConfig, learners: set<nat>, learnersNext: set<nat>)

  /** The configuration together with the progress of every peer in it. */
  datatype Tracked = Tracked(cfg: Config, trk: map<nat, Progress>)

  const EMPTY := Tracked(Config(JointConfig({}, {}), {}, {}), map[])

  predicate Joint(cfg: Config) { cfg.voters.outgoing != {} }

  function InitProgress(t: Tracked, id: nat, lastIndex: nat): Tracked {
    Tracked(t.cfg.(voters := t.cfg.voters.(incoming := t.cfg.voters.incoming + {id})),
            t.trk[id := Progress(0, lastIndex, StateProbe, 0, true, false, false)])
  }

  function MakeVoter(t: Tracked, id: nat, lastIndex: nat): Tracked {
    if id !in t.trk then InitProgress(t, id, lastIndex)
    else Tracked(Config(t.cfg.voters.(incoming := t.cfg.voters.incoming + {id}),
                        t.cfg.learners - {id}, t.cfg.learnersNext - {id}),
                 t.trk[id := t.trk[id].(isLearner := false)])
  }

  function Remove(t: Tracked, id: nat): Tracked {
    if id !in t.trk then t
    else Tracked(Config(t.cfg.voters.(incoming := t.cfg.voters.incoming - {id}),
                        t.cfg.learners - {id}, t.cfg.learnersNext - {id}),
                 if id in t.cfg.voters.outgoing then t.trk else t.trk - {id})
  }

  /** One change; None for the types that the source rejects. */
  function ApplyOne(t: Tracked, lastIndex: nat, cc: ConfChangeSingle): Option<Tracked> {
    if cc.nodeID == 0 then Some(t)
    else if cc.ctype == ADD_NODE then Some(MakeVoter(t, cc.nodeID, lastIndex))
    else if cc.ctype == REMOVE_NODE then Some(Remove(t, cc.nodeID))
    else if cc.ctype == UPDATE_NODE then Some(t)
    else None
  }

  function ApplyAll(t: Tracked, lastIndex: nat, ccs: seq<ConfChangeSingle>): Option<Tracked> {
    if ccs == [] then Some(t)
    else
      var r := ApplyAll(t, lastIndex, ccs[..|ccs| - 1]);
      if r.None? then None else ApplyOne(r.value, lastIndex, ccs[|ccs| - 1])
  }

  /** Changer.Simple; None for each of its errors. */
  function Simple(t: Tracked, lastIndex: nat, ccs: seq<ConfChangeSingle>): Option<Tracked> {
    if Joint(t.cfg) then None
    else
      var r := ApplyAll(t, lastIndex, ccs);
      if r.None? || r.value.cfg.voters.incoming == {} then None
      else if |t.cfg.voters.incoming - r.value.cfg.voters.incoming|
              + |r.value.cfg.voters.incoming - t.cfg.voters.incoming| > 1 then None
      else r
  }

  // ---------------------------------------------------------------------
  // The source's loops.

  method SymDiff(l: set<nat>, r: set<nat>) returns (n: nat)
    ensures n == |l - r| + |r - l|
  {
    var a := CountMissing(l, r);
    var b := CountMissing(r, l);
    n := a + b;
  }

  method CountMissing(l: set<nat>, r: set<nat>) returns (n: nat)
    ensures n == |l - r|
  {
    n := 0;
    var todo, done := l, {};
    while todo != {}
      invariant done + todo == l && done !! todo && n == |done - r|
      decreases todo
    {
      var id :| id in todo;
      assert (done + {id}) - r == (done - r) + (if id in r then {} else {id});
      if id !in r {
        n := n + 1;
      }
      done, todo := done + {id}, todo - {id};
    }
    assert done == l;
  }

  method Apply(t: Tracked, lastIndex: nat, ccs: seq<ConfChangeSingle>) returns (r: Option<Tracked>)
    ensures r == (var a := ApplyAll(t, lastIndex, ccs);
                  if a.Some? && a.value.cfg.voters.incoming == {} then None else a)
  {
    var cur := t;
    var k := 0;
    while k < |ccs|
      invariant 0 <= k <= |ccs|
      invariant ApplyAll(t, lastIndex, ccs[..k]) == Some(cur)
    {
      var cc := ccs[k];
      assert ccs[..k + 1][..k] == ccs[..k];
      k := k + 1;
      if cc.nodeID != 0 {
        if cc.ctype == ADD_NODE {
          cur := MakeVoter(cur, cc.nodeID, lastIndex);
        } else if cc.ctype == REMOVE_NODE {
          cur := Remove(cur, cc.nodeID);
        } else if cc.ctype != UPDATE_NODE {
          RejectedStays(t, lastIndex, ccs, k);
          return None;
        }
      }
    }
    assert ccs[..k] == ccs;
    if cur.cfg.voters.incoming == {} {
      return None;
    }
    return Some(cur);
  }

  lemma {:induction false} RejectedStays(t: Tracked, lastIndex: nat, ccs: seq<ConfChangeSingle>, k: nat)
    requires k <= |ccs| && ApplyAll(t, lastIndex, ccs[..k]) == None
    ensures ApplyAll(t, lastIndex, ccs) == None
    decreases |ccs| - k
  {
    if k == |ccs| {
      assert ccs[..k] == ccs;
    } else {
      assert ccs[..k + 1][..k] == ccs[..k];
      RejectedStays(t, lastIndex, ccs, k + 1);
    }
  }

  /** Changer.Simple; the Changer shows the same over maps and pointers. */
  method RunSimple(t: Tracked, lastIndex: nat, ccs: seq<ConfChangeSingle>) returns (r: Option<Tracked>)
    ensures r == Simple(t, lastIndex, ccs)
  {
    if Joint(t.cfg) {
      return None;
    }
    r := Apply(t, lastIndex, ccs);
    if r.None? {
      return None;
    }
    var n := SymDiff(t.cfg.voters.incoming, r.value.cfg.voters.incoming);
    if n > 1 {
      return None;
    }
  }

  // ---------------------------------------------------------------------
  // Safety.

  /** After a successful simple change, old and new majorities always share a voter. */
  lemma SimpleQuorumsMeet(t: Tracked, lastIndex: nat, ccs: seq<ConfChangeSingle>, q1: set<nat>, q2: set<nat>)
    requires Simple(t, lastIndex, ccs).Some?
    requires IsQuorum(q1, t.cfg.voters.incoming)
    requires IsQuorum(q2, Simple(t, lastIndex, ccs).value.cfg.voters.incoming)
    ensures q1 * q2 != {}
  {
    var v := AdjacentQuorumsMeet(q1, t.cfg.voters.incoming,
                                 q2, Simple(t, lastIndex, ccs).value.cfg.voters.incoming);
    assert v in q1 * q2;
  }

  /** What checkInvariants leaves as a TODO. */
  ghost predicate TrackedOk(t: Tracked) {
    && t.trk.Keys == t.cfg.voters.incoming + t.cfg.voters.outgoing + t.cfg.learners
    && t.cfg.learners !! t.cfg.voters.incoming
    && t.cfg.learners !! t.cfg.voters.outgoing
    && t.cfg.learnersNext <= t.cfg.voters.outgoing
    && t.cfg.learnersNext !! t.cfg.voters.incoming
    && (forall id :: id in t.trk ==> (t.trk[id].isLearner <==> id in t.cfg.learners))
    && 0 !in t.trk
  }

  lemma {:induction false} ApplyAllKeeps(t: Tracked, lastIndex: nat, ccs: seq<ConfChangeSingle>)
    requires TrackedOk(t) && !Joint(t.cfg)
    ensures var r := ApplyAll(t, lastIndex, ccs);
            r.Some? ==> TrackedOk(r.value) && r.value.cfg.voters.outgoing == {}
  {
    if ccs != [] {
      ApplyAllKeeps(t, lastIndex, ccs[..|ccs| - 1]);
    }
  }

  /** Trackers reachable from the empty one by successful simple changes. */
  ghost predicate Reachable(steps: seq<(nat, seq<ConfChangeSingle>)>, t: Tracked)
  {
    if steps == [] then t == EMPTY
    else
      var (lastIndex, ccs) := steps[|steps| - 1];
      exists p :: Reachable(steps[..|steps| - 1], p) && Simple(p, lastIndex, ccs) == Some(t)
  }

  lemma {:induction false} SimpleChainKeeps(steps: seq<(nat, seq<ConfChangeSingle>)>, t: Tracked)
    requires Reachable(steps, t)
    ensures TrackedOk(t) && !Joint(t.cfg) && t.cfg.learners == {}
    ensures steps != [] ==> t.cfg.voters.incoming != {}
  {
    if steps != [] {
      var (lastIndex, ccs) := steps[|steps| - 1];
      var p :| Reachable(steps[..|steps| - 1], p) && Simple(p, lastIndex, ccs) == Some(t);
      SimpleChainKeeps(steps[..|steps| - 1], p);
      ApplyAllKeeps(p, lastIndex, ccs);
      NoLearners(p, lastIndex, ccs);
    }
  }

  lemma {:induction false} NoLearners(t: Tracked, lastIndex: nat, ccs: seq<ConfChangeSingle>)
    requires t.cfg.learners == {}
    ensures var r := ApplyAll(t, lastIndex, ccs); r.Some? ==> r.value.cfg.learners == {}
  {
    if ccs != [] {
      NoLearners(t, lastIndex, ccs[..|ccs| - 1]);
    }
  }

  /** Adding a peer that already votes changes nothing, as when bootstrap entries are re-applied. */
  lemma ReAddIsIdentity(t: Tracked, lastIndex: nat, id: nat)
    requires TrackedOk(t) && !Joint(t.cfg) && t.cfg.learnersNext == {} && id in t.cfg.voters.incoming
    ensures Simple(t, lastIndex, [ConfChangeSingle(ADD_NODE, id)]) == Some(t)
  {
    hide Joint;
    var ccs := [ConfChangeSingle(ADD_NODE, id)];
    assert ccs[..0] == [];
    assert ApplyAll(t, lastIndex, []) == Some(t);
    assert t.cfg.voters.incoming + {id} == t.cfg.voters.incoming;
    assert t.trk[id := t.trk[id].(isLearner := false)] == t.trk;
    assert t.cfg.learners - {id} == t.cfg.learners && t.cfg.learnersNext - {id} == {};
    assert ApplyAll(t, lastIndex, ccs) == Some(t);
  }

  // ---------------------------------------------------------------------
  // The configuration that a list of changes leads to.

  /** The change adds or removes node `id`. */
  predicate Touches(cc: ConfChangeSingle, id: nat) {
    cc.nodeID == id && id != 0 && (cc.ctype == ADD_NODE || cc.ctype == REMOVE_NODE)
  }

  /** The last change that touches `id` is the one at `k`. */
  ghost predicate LastTouch(ccs: seq<ConfChangeSingle>, id: nat, k: nat) {
    k < |ccs| && Touches(ccs[k], id) && forall j :: k < j < |ccs| ==> !Touches(ccs[j], id)
  }

  ghost predicate Untouched(ccs: seq<ConfChangeSingle>, id: nat) {
    forall j :: 0 <= j < |ccs| ==> !Touches(ccs[j], id)
  }

  /** The source has no case for it. */
  ghost predicate Unexpected(cc: ConfChangeSingle) {
    cc.nodeID != 0 && cc.ctype != ADD_NODE && cc.ctype != REMOVE_NODE && cc.ctype != UPDATE_NODE
  }

  ghost predicate AnyUnexpected(ccs: seq<ConfChangeSingle>) { exists k :: 0 <= k < |ccs| && Unexpected(ccs[k]) }

  lemma UnexpectedSplits(init: seq<ConfChangeSingle>, cc: ConfChangeSingle)
    ensures AnyUnexpected(init + [cc]) <==> AnyUnexpected(init) || Unexpected(cc)
  {
    var all := init + [cc];
    if AnyUnexpected(init) {
      var k :| 0 <= k < |init| && Unexpected(init[k]);
      assert Unexpected(all[k]);
    }
    if Unexpected(cc) {
      assert Unexpected(all[|init|]);
    }
  }

  /** The changes fail exactly when one of them is of an unexpected type. */
  lemma {:induction false} ApplyFailsOn(t: Tracked, lastIndex: nat, ccs: seq<ConfChangeSingle>)
    ensures ApplyAll(t, lastIndex, ccs) == None <==> AnyUnexpected(ccs)
  {
    if ccs != [] {
      var init, cc := ccs[..|ccs| - 1], ccs[|ccs| - 1];
      ApplyFailsOn(t, lastIndex, init);
      UnexpectedSplits(init, cc);
      assert init + [cc] == ccs;
    }
  }

  /** What the last change says of `id`: it votes or it does not; a node that no change touches stays as it was. */
  ghost predicate Decided(t: Tracked, lastIndex: nat, ccs: seq<ConfChangeSingle>, r: Tracked, id: nat) {
    && (Untouched(ccs, id) ==>
          && (id in r.cfg.voters.incoming <==> id in t.cfg.voters.incoming)
          && (id in r.trk <==> id in t.trk) && (id in t.trk ==> r.trk[id] == t.trk[id]))
    && forall k: nat {:trigger LastTouch(ccs, id, k)} :: LastTouch(ccs, id, k) ==>
         if ccs[k].ctype == ADD_NODE
         then id in r.cfg.voters.incoming && id in r.trk && !r.trk[id].isLearner
         else id !in r.cfg.voters.incoming && (id !in t.cfg.voters.outgoing ==> id !in r.trk)
  }

  lemma {:induction false} ChangesDecide(t: Tracked, lastIndex: nat, ccs: seq<ConfChangeSingle>, id: nat)
    requires t.cfg.voters.incoming + t.cfg.voters.outgoing <= t.trk.Keys && ApplyAll(t, lastIndex, ccs).Some?
    ensures var r := ApplyAll(t, lastIndex, ccs).value;
            && Decided(t, lastIndex, ccs, r, id) && r.cfg.voters.outgoing == t.cfg.voters.outgoing
            && r.cfg.voters.incoming + r.cfg.voters.outgoing <= r.trk.Keys
  {
    if ccs != [] {
      var init, cc := ccs[..|ccs| - 1], ccs[|ccs| - 1];
      ChangesDecide(t, lastIndex, init, id);
      var m, r := ApplyAll(t, lastIndex, init).value, ApplyAll(t, lastIndex, ccs).value;
      OneDecides(m, lastIndex, cc, r, id);
      if Touches(cc, id) {
        forall k: nat | LastTouch(ccs, id, k) ensures k == |ccs| - 1 {
          assert Touches(ccs[|ccs| - 1], id);
        }
        assert !Untouched(ccs, id) by {
          assert Touches(ccs[|ccs| - 1], id);
        }
      } else {
        assert Untouched(ccs, id) ==> Untouched(init, id);
        forall k: nat | LastTouch(ccs, id, k) ensures LastTouch(init, id, k) && init[k] == ccs[k] {
        }
      }
    }
  }

  lemma OneDecides(t: Tracked, lastIndex: nat, cc: ConfChangeSingle, r: Tracked, id: nat)
    requires t.cfg.voters.incoming + t.cfg.voters.outgoing <= t.trk.Keys && ApplyOne(t, lastIndex, cc) == Some(r)
    ensures r.cfg.voters.outgoing == t.cfg.voters.outgoing
    ensures r.cfg.voters.incoming + r.cfg.voters.outgoing <= r.trk.Keys
    ensures !Touches(cc, id) ==>
              && (id in r.cfg.voters.incoming <==> id in t.cfg.voters.incoming)
              && (id in r.trk <==> id in t.trk) && (id in t.trk ==> r.trk[id] == t.trk[id])
    ensures Touches(cc, id) ==>
              if cc.ctype == ADD_NODE then id in r.cfg.voters.incoming && id in r.trk && !r.trk[id].isLearner
              else id !in r.cfg.voters.incoming && (id !in t.cfg.voters.outgoing ==> id !in r.trk)
  {
  }

  /** When Simple succeeds, and which voters it leaves, in terms of the changes alone. */
  lemma SimpleDecides(t: Tracked, lastIndex: nat, ccs: seq<ConfChangeSingle>)
    requires t.cfg.voters.incoming + t.cfg.voters.outgoing <= t.trk.Keys
    ensures Simple(t, lastIndex, ccs).Some? ==>
              forall id :: Decided(t, lastIndex, ccs, Simple(t, lastIndex, ccs).value, id)
    ensures t.cfg.voters.outgoing != {} || AnyUnexpected(ccs) ==>
              Simple(t, lastIndex, ccs) == None
    ensures t.cfg.voters.outgoing == {} && !AnyUnexpected(ccs) ==>
              var r := ApplyAll(t, lastIndex, ccs);
              && r.Some? && (forall id :: Decided(t, lastIndex, ccs, r.value, id))
              && var (was, is_) := (t.cfg.voters.incoming, r.value.cfg.voters.incoming);
                 Simple(t, lastIndex, ccs) == if is_ == {} || |was - is_| + |is_ - was| > 1 then None else r
  {
    hide ApplyAll, Decided;
    ApplyFailsOn(t, lastIndex, ccs);
    if ApplyAll(t, lastIndex, ccs).Some? {
      forall id ensures Decided(t, lastIndex, ccs, ApplyAll(t, lastIndex, ccs).value, id) {
        ChangesDecide(t, lastIndex, ccs, id);
      }
    }
  }

  /** A node that is new gets a progress that probes it with the last index. */
  lemma NewNodeIsProbed(t: Tracked, lastIndex: nat, id: nat)
    requires id != 0 && id !in t.trk
    ensures ApplyOne(t, lastIndex, ConfChangeSingle(ADD_NODE, id)).Some?
    ensures var r := ApplyOne(t, lastIndex, ConfChangeSingle(ADD_NODE, id)).value;
            r.trk == t.trk[id := Progress(0, lastIndex, StateProbe, 0, true, false, false)]
            && r.cfg == t.cfg.(voters := t.cfg.voters.(incoming := t.cfg.voters.incoming + {id}))
  {
  }
}
